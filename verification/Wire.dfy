/** The byte formats of the bonding transport: lane header, DATA, ACK and hello. */
module Wire {
  import opened Packets
  import opened Bytes
  import Frames
  import RW = ReceiptWindows

  const VERSION: Byte := 1
  const DATA_TYPE: Byte := 0xa1
  const ACK_TYPE: Byte := 0xa2
  const IP_AND_UDP_HEADERS: nat := 28
  const HEADER_BYTES: nat := 19
  const DATA_FIELD_BYTES: nat := 32
  const ACK_BYTES: nat := 96
  const MAX_INT64: nat := 0x7fff_ffff_ffff_ffff

  type Epoch64 = e: Epoch | e.boot < UINT64 && e.generation < UINT64 witness NO_EPOCH

  datatype Header = Header(epoch: Epoch64, lane: Uint16) {
    /** Zero epochs are never sent and never accepted. */
    predicate Valid() { epoch.boot != 0 && epoch.generation != 0 }
  }

  datatype DataFields = DataFields(destination: Epoch64, number: Uint64, order: Uint64, payload: seq<Byte>)

  datatype AckFields = AckFields(
    observed: Epoch64, high: Uint64, mask: Uint64, bytes: Uint64, elapsed: Uint64, delay: Uint64,
    receivedHigh: Uint64, receivedMask: seq<Uint64>)
  {
    predicate Valid() { |receivedMask| == RW.ACK_RECEIPT_WORDS && elapsed <= MAX_INT64 && delay <= MAX_INT64 }

    /** received: the bitmap words report the datagram number n. */
    predicate Received(n: nat)
      requires |receivedMask| == RW.ACK_RECEIPT_WORDS
    {
      n != 0 && n <= receivedHigh && receivedHigh - n < 64 * RW.ACK_RECEIPT_WORDS
        && RW.ReceiptBit(receivedMask, receivedHigh - n)
    }

    /** The values in the order they are written. */
    function Values(): (values: seq<Uint64>)
      ensures |values| == 8 + |receivedMask|
    {
      [observed.boot, observed.generation, high, mask, bytes, elapsed, delay, receivedHigh] + receivedMask
    }
  }

  // ----- what is on the wire -----

  function Numbers(values: seq<Uint64>): (b: seq<Byte>)
    ensures |b| == 8 * |values|
  {
    if values == [] then [] else Numbers(values[..|values| - 1]) + BigEndian(values[|values| - 1], 8)
  }

  function EpochBytes(e: Epoch64): (b: seq<Byte>)
    ensures |b| == 16
  {
    BigEndian(e.boot, 8) + BigEndian(e.generation, 8)
  }

  function HeaderBytes(h: Header): (b: seq<Byte>)
    ensures |b| == HEADER_BYTES
  {
    [VERSION] + EpochBytes(h.epoch) + BigEndian(h.lane, 2)
  }

  function DataBytes(h: Header, d: DataFields): seq<Byte> {
    HeaderBytes(h) + EpochBytes(d.destination) + BigEndian(d.number, 8) + BigEndian(d.order, 8) + d.payload
  }

  function AckFrameBytes(h: Header, a: AckFields): seq<Byte> {
    HeaderBytes(h) + Numbers(a.Values())
  }

  function HelloBytes(e: Epoch64, path: Byte): (b: seq<Byte>)
    ensures |b| == 22
  {
    [98, 111, 110, 100, VERSION, path] + EpochBytes(e)
  }

  // ----- parsing -----

  function ReadEpoch(b: seq<Byte>, at: nat): Epoch64
    requires at + 16 <= |b|
  {
    Epoch(Read64(b, at), Read64(b, at + 8))
  }

  function ParseHeader(b: seq<Byte>): Option<Header> {
    if |b| < HEADER_BYTES || b[0] != VERSION then None
    else
      var h := Header(ReadEpoch(b, 1), Read16(b, 17));
      if h.Valid() then Some(h) else None
  }

  function ParseData(b: seq<Byte>): Option<DataFields> {
    if |b| < HEADER_BYTES + DATA_FIELD_BYTES || |b| > HEADER_BYTES + DATA_FIELD_BYTES + MAX_DATAGRAM then None
    else Some(DataFields(ReadEpoch(b, 19), Read64(b, 35), Read64(b, 43), b[51..]))
  }

  function ParseAck(b: seq<Byte>): Option<AckFields> {
    if |b| != HEADER_BYTES + ACK_BYTES then None
    else
      var a := AckFields(ReadEpoch(b, 19), Read64(b, 35), Read64(b, 43), Read64(b, 51), Read64(b, 59),
                         Read64(b, 67), Read64(b, 75),
                         [Read64(b, 83), Read64(b, 91), Read64(b, 99), Read64(b, 107)]);
      if a.Valid() then Some(a) else None
  }

  /** The name "bond", the version, the path and the epoch. */
  function ParseHello(b: seq<Byte>): Option<(Epoch64, Byte)> {
    if |b| != 22 || b[..4] != [98, 111, 110, 100] || b[4] != VERSION then None
    else
      var e := ReadEpoch(b, 6);
      if e.boot != 0 && e.generation != 0 then Some((e, b[5])) else None
  }

  // ----- the encoders -----

  /** PutUint16 and PutUint64: writes the n bytes of v in place. */
  method Put(b: array<Byte>, at: nat, v: nat, n: nat)
    requires at + n <= b.Length
    modifies b
    ensures b[..] == old(b[..at]) + BigEndian(v, n) + old(b[at + n..])
  {
    var left := v;
    var i := n;
    while i > 0
      invariant 0 <= i <= n && BigEndian(v, n) == BigEndian(left, i) + b[at + i..at + n]
      invariant b[..at] == old(b[..at]) && b[at + n..] == old(b[at + n..])
    {
      i := i - 1;
      b[at + i] := left % 256;
      assert b[at + i..at + n] == [left % 256] + b[at + i + 1..at + n];
      left := left / 256;
    }
    assert b[..] == b[..at] + b[at..at + n] + b[at + n..];
  }

  method AppendHeader(h: Header) returns (r: seq<Byte>)
    ensures r == HeaderBytes(h)
  {
    var b := new Byte[HEADER_BYTES](_ => 0);
    b[0] := VERSION;
    Put(b, 1, h.epoch.boot, 8);
    assert b[..9] == [VERSION] + BigEndian(h.epoch.boot, 8);
    Put(b, 9, h.epoch.generation, 8);
    assert b[..17] == b[..][..9] + BigEndian(h.epoch.generation, 8);
    Put(b, 17, h.lane, 2);
    assert b[..] == b[..][..17] + BigEndian(h.lane, 2);
    r := b[..];
  }

  method AppendNumbers(b: seq<Byte>, values: seq<Uint64>) returns (r: seq<Byte>)
    ensures r == b + Numbers(values)
  {
    hide BigEndian;
    r := b;
    for i := 0 to |values|
      invariant r == b + Numbers(values[..i])
    {
      NumbersGrow(values, i);
      r := r + BigEndian(values[i], 8);
    }
    assert values[..|values|] == values;
  }

  lemma {:induction false} NumbersGrow(values: seq<Uint64>, i: nat)
    requires i < |values|
    ensures Numbers(values[..i + 1]) == Numbers(values[..i]) + BigEndian(values[i], 8)
  {
    hide BigEndian;
    assert values[..i + 1][..i] == values[..i];
  }

  method DataFrame(h: Header, d: DataFields) returns (r: seq<Byte>)
    ensures r == DataBytes(h, d)
  {
    r := AppendHeader(h);
    r := r + BigEndian(d.destination.boot, 8);
    r := r + BigEndian(d.destination.generation, 8);
    r := r + BigEndian(d.number, 8) + BigEndian(d.order, 8) + d.payload;
  }

  method AckFrame(h: Header, a: AckFields) returns (r: seq<Byte>)
    ensures r == AckFrameBytes(h, a)
  {
    var b := AppendHeader(h);
    r := AppendNumbers(b, [a.observed.boot, a.observed.generation, a.high, a.mask, a.bytes, a.elapsed, a.delay,
                           a.receivedHigh] + a.receivedMask);
  }

  // ----- round trips, both ways -----

  lemma {:induction false} Read64Of(b: seq<Byte>, at: nat, v: Uint64)
    requires at + 8 <= |b|
    ensures b[at..at + 8] == BigEndian(v, 8) <==> Read64(b, at) == v
  {
    Number64(v);
    Bytes64(b[at..at + 8]);
  }

  lemma {:induction false} Read16Of(b: seq<Byte>, at: nat, v: Uint16)
    requires at + 2 <= |b|
    ensures b[at..at + 2] == BigEndian(v, 2) <==> Read16(b, at) == v
  {
    Number16(v);
    Bytes16(b[at..at + 2]);
  }

  lemma {:induction false} ReadEpochOf(b: seq<Byte>, at: nat, e: Epoch64)
    requires at + 16 <= |b|
    ensures b[at..at + 16] == EpochBytes(e) <==> ReadEpoch(b, at) == e
  {
    hide Read64;
    Read64Of(b, at, e.boot);
    Read64Of(b, at + 8, e.generation);
    assert b[at..at + 16] == b[at..at + 8] + b[at + 8..at + 16];
    SameParts(b[at..at + 8], b[at + 8..at + 16], BigEndian(e.boot, 8), BigEndian(e.generation, 8));
  }

  lemma {:induction false} SameParts(x: seq<Byte>, y: seq<Byte>, u: seq<Byte>, v: seq<Byte>)
    requires |x| == |u|
    ensures x + y == u + v <==> x == u && y == v
  {
    if x + y == u + v {
      assert x == (x + y)[..|x|] && u == (u + v)[..|u|] && y == (x + y)[|x|..] && v == (u + v)[|u|..];
    }
  }

  /** A header parses exactly from its own bytes, if its epoch is not zero, and from nothing else. */
  lemma {:induction false} HeaderExact(b: seq<Byte>, h: Header)
    ensures ParseHeader(b) == Some(h) <==> h.Valid() && HeaderBytes(h) <= b
  {
    hide Read16, ReadEpoch, EpochBytes;
    if |b| >= HEADER_BYTES {
      ReadEpochOf(b, 1, h.epoch);
      Read16Of(b, 17, h.lane);
      assert b[..19] == [b[0]] + b[1..17] + b[17..19];
      assert HeaderBytes(h) <= b <==> b[..19] == HeaderBytes(h);
    }
  }

  /** The fields of a DATA frame parse exactly from its bytes, for payloads up to the largest datagram. */
  lemma {:induction false} DataExact(b: seq<Byte>, h: Header, d: DataFields)
    ensures ParseHeader(b) == Some(h) && ParseData(b) == Some(d) <==>
            h.Valid() && |d.payload| <= MAX_DATAGRAM && b == DataBytes(h, d)
  {
    hide Read64, ReadEpoch, EpochBytes, HeaderBytes, ParseHeader, BigEndian;
    HeaderExact(b, h);
    if |b| >= HEADER_BYTES + DATA_FIELD_BYTES {
      ReadEpochOf(b, 19, d.destination);
      Read64Of(b, 35, d.number);
      Read64Of(b, 43, d.order);
      DataParts(b, HeaderBytes(h), EpochBytes(d.destination), BigEndian(d.number, 8), BigEndian(d.order, 8), d.payload);
    }
  }

  /** Bytes are a header, an epoch, two numbers and a payload exactly if each is in its place. */
  lemma {:induction false} DataParts(
    b: seq<Byte>, h: seq<Byte>, e: seq<Byte>, n: seq<Byte>, o: seq<Byte>, p: seq<Byte>)
    requires |b| >= 51 && |h| == 19 && |e| == 16 && |n| == 8 && |o| == 8
    ensures h <= b <==> b[..19] == h
    ensures b == h + e + n + o + p <==>
            b[..19] == h && b[19..35] == e && b[35..43] == n && b[43..51] == o && b[51..] == p
  {
    assert b == b[..19] + b[19..35] + b[35..43] + b[43..51] + b[51..];
  }

  lemma {:induction false} NumbersAt(values: seq<Uint64>, i: nat)
    requires i < |values|
    ensures Numbers(values)[8 * i..8 * i + 8] == BigEndian(values[i], 8)
  {
    if i < |values| - 1 {
      NumbersAt(values[..|values| - 1], i);
      assert Numbers(values)[8 * i..8 * i + 8] == Numbers(values[..|values| - 1])[8 * i..8 * i + 8];
    }
  }

  /** Bytes are those of the numbers if and only if every eight of them are. */
  lemma {:induction false} NumbersExact(b: seq<Byte>, values: seq<Uint64>)
    requires |b| == 8 * |values|
    ensures b == Numbers(values) <==> forall i :: 0 <= i < |values| ==> Eight(b, i) == BigEndian(values[i], 8)
  {
    if b == Numbers(values) {
      forall i | 0 <= i < |values| ensures Eight(b, i) == BigEndian(values[i], 8) { NumbersAt(values, i); }
    } else if forall i :: 0 <= i < |values| ==> Eight(b, i) == BigEndian(values[i], 8) {
      FromEights(b, values);
    }
  }

  function Eight(b: seq<Byte>, i: nat): seq<Byte>
    requires 8 * i + 8 <= |b|
  {
    b[8 * i..8 * i + 8]
  }

  lemma {:induction false} FromEights(b: seq<Byte>, values: seq<Uint64>)
    requires |b| == 8 * |values| && forall i :: 0 <= i < |values| ==> Eight(b, i) == BigEndian(values[i], 8)
    ensures b == Numbers(values)
  {
    hide BigEndian, Eight;
    if values != [] {
      var n := |values| - 1;
      var init := b[..8 * n];
      forall i | 0 <= i < n ensures Eight(init, i) == BigEndian(values[i], 8) { EightOfInit(b, n, i); }
      FromEights(init, values[..n]);
      EightOfInit(b, n, n);
    }
  }

  lemma {:induction false} EightOfInit(b: seq<Byte>, n: nat, i: nat)
    requires |b| == 8 * n + 8 && i <= n
    ensures i < n ==> Eight(b[..8 * n], i) == Eight(b, i)
    ensures i == n ==> b == b[..8 * n] + Eight(b, n)
  {
  }

  lemma {:induction false} AckReads(b: seq<Byte>, a: AckFields, i: nat)
    requires |b| == HEADER_BYTES + ACK_BYTES && |a.receivedMask| == RW.ACK_RECEIPT_WORDS && i < 12
    ensures Eight(b[19..], i) == BigEndian(a.Values()[i], 8) <==> Slot(b, i) == a.Values()[i]
  {
    Read64Of(b, 19 + 8 * i, a.Values()[i]);
    assert Eight(b[19..], i) == b[19 + 8 * i..19 + 8 * i + 8];
  }

  /** An acknowledgement parses exactly from its bytes, if its times fit the clock. */
  lemma {:induction false} AckExact(b: seq<Byte>, h: Header, a: AckFields)
    ensures ParseHeader(b) == Some(h) && ParseAck(b) == Some(a) <==> h.Valid() && a.Valid() && b == AckFrameBytes(h, a)
  {
    hide ParseHeader, HeaderBytes, Numbers, Read64, Eight;
    HeaderExact(b, h);
    if |b| == HEADER_BYTES + ACK_BYTES && a.Valid() {
      var values := a.Values();
      NumbersExact(b[19..], values);
      forall i: nat | i < 12 ensures Eight(b[19..], i) == BigEndian(values[i], 8) <==> Slot(b, i) == values[i] {
        AckReads(b, a, i);
      }
      assert b == b[..19] + b[19..];
      AckFieldsAre(b, a);
    }
  }

  /** Number i after the header of an acknowledgement. */
  function Slot(b: seq<Byte>, i: nat): Uint64
    requires |b| == HEADER_BYTES + ACK_BYTES && i < 12
  {
    Read64(b, 19 + 8 * i)
  }

  /** The parsed fields are a's if and only if every number read is. */
  lemma {:induction false} AckFieldsAre(b: seq<Byte>, a: AckFields)
    requires |b| == HEADER_BYTES + ACK_BYTES && a.Valid()
    ensures ParseAck(b) == Some(a) <==> forall i: nat :: i < 12 ==> Slot(b, i) == a.Values()[i]
  {
    hide Read64;
    var v, m := a.Values(), a.receivedMask;
    assert m == [m[0], m[1], m[2], m[3]];
    assert v[0] == a.observed.boot && v[1] == a.observed.generation && v[2] == a.high && v[3] == a.mask
      && v[4] == a.bytes;
    assert v[5] == a.elapsed && v[6] == a.delay && v[7] == a.receivedHigh && v[8] == m[0] && v[9] == m[1]
      && v[10] == m[2] && v[11] == m[3];
    assert Slot(b, 0) == Read64(b, 19) && Slot(b, 1) == Read64(b, 27) && Slot(b, 2) == Read64(b, 35)
      && Slot(b, 3) == Read64(b, 43);
    assert Slot(b, 4) == Read64(b, 51) && Slot(b, 5) == Read64(b, 59) && Slot(b, 6) == Read64(b, 67)
      && Slot(b, 7) == Read64(b, 75);
    assert Slot(b, 8) == Read64(b, 83) && Slot(b, 9) == Read64(b, 91) && Slot(b, 10) == Read64(b, 99)
      && Slot(b, 11) == Read64(b, 107);
    if ParseAck(b) == Some(a) {
      forall i: nat | i < 12 ensures Slot(b, i) == v[i] { }
    }
  }

  /** A hello parses exactly from its bytes, if its epoch is not zero. */
  lemma {:induction false} HelloExact(b: seq<Byte>, e: Epoch64, path: Byte)
    ensures ParseHello(b) == Some((e, path)) <==> e.boot != 0 && e.generation != 0 && b == HelloBytes(e, path)
  {
    hide ReadEpoch, EpochBytes;
    if |b| == 22 {
      ReadEpochOf(b, 6, e);
      assert b == b[..4] + [b[4], b[5]] + b[6..22];
    }
  }

  /**
   * What a receipt window puts in an acknowledgement is what the other side reads in it: a number is
   * reported exactly if it is marked and at most 255 behind the top.
   */
  lemma {:induction false} ReceiptsSurvive(b: seq<Byte>, h: Header, a: AckFields, marks: set<nat>, top: Uint64, n: nat)
    requires h.Valid() && a.Valid() && b == AckFrameBytes(h, a) && a.receivedHigh == top && 0 !in marks
    requires forall offset :: 0 <= offset < 64 * RW.ACK_RECEIPT_WORDS ==>
      RW.ReceiptBit(a.receivedMask, offset) == (offset < top && top - offset in marks)
    ensures ParseAck(b).Some?
      && (ParseAck(b).value.Received(n) <==> n in marks && n <= top < n + 64 * RW.ACK_RECEIPT_WORDS)
  {
    hide ParseAck, ParseHeader, AckFrameBytes, RW.ReceiptBit;
    AckExact(b, h, a);
    if n <= top < n + 64 * RW.ACK_RECEIPT_WORDS {
      assert RW.ReceiptBit(a.receivedMask, top - n) == (top - n < top && top - (top - n) in marks);
    }
  }

  /**
   * A DATA frame from sender to receiver: sealed under the shared key and opened again it yields the lane
   * number and all fields, and with the IP and UDP headers it occupies exactly the bytes it is charged for.
   */
  lemma {:induction false} DataTravels(keys: Frames.Keys, nonce: seq<Byte>, attempt: Uint64, h: Header, d: DataFields)
    requires keys.Valid() && |nonce| == Frames.NONCE_LEN && h.Valid() && |d.payload| <= MAX_DATAGRAM
    ensures var wire := Frames.Encoding(keys, nonce, Frames.Control(DATA_TYPE, attempt, DataBytes(h, d)));
      && Frames.Decoding(keys, wire) == Frames.Accepted(Frames.Control(DATA_TYPE, attempt, DataBytes(h, d)))
      && ParseHeader(DataBytes(h, d)) == Some(h) && ParseData(DataBytes(h, d)) == Some(d)
      && |wire| + IP_AND_UDP_HEADERS == WireBytes(d.payload)
  {
    hide ParseHeader, ParseData, Frames.Decoding;
    var f := Frames.Control(DATA_TYPE, attempt, DataBytes(h, d));
    Frames.WireRoundTrip(keys, nonce, f);
    DataExact(DataBytes(h, d), h, d);
    assert |Frames.Body(f)| == 10 + |DataBytes(h, d)|;
    assert |keys.tag(nonce, Frames.Obfuscated(keys, nonce, Frames.Body(f)))| == Frames.TAG_LEN;
  }

  /** An acknowledgement from receiver to sender, likewise. */
  lemma {:induction false} AckTravels(keys: Frames.Keys, nonce: seq<Byte>, revision: Uint64, h: Header, a: AckFields)
    requires keys.Valid() && |nonce| == Frames.NONCE_LEN && h.Valid() && a.Valid()
    ensures var wire := Frames.Encoding(keys, nonce, Frames.Control(ACK_TYPE, revision, AckFrameBytes(h, a)));
      && Frames.Decoding(keys, wire) == Frames.Accepted(Frames.Control(ACK_TYPE, revision, AckFrameBytes(h, a)))
      && ParseHeader(AckFrameBytes(h, a)) == Some(h) && ParseAck(AckFrameBytes(h, a)) == Some(a)
  {
    hide ParseHeader, ParseAck, Frames.Decoding, Frames.Encoding, AckFrameBytes;
    Frames.WireRoundTrip(keys, nonce, Frames.Control(ACK_TYPE, revision, AckFrameBytes(h, a)));
    AckExact(AckFrameBytes(h, a), h, a);
  }
}
