/** The outer frames: bodies, the keystream and the tag. */
module Frames {
  import opened Packets
  import opened Bytes

  const NONCE_LEN: nat := 24
  const TAG_LEN: nat := 16
  const KIND_PROBE: Byte := 3
  const KIND_CONTROL: Byte := 4
  const PROBE_FIXED_BODY: nat := 35
  const PROBE_BASE_ON_WIRE: nat := 77
  const MAX_PADDED_PROBE_ON_WIRE: nat := 9000

  type Int64 = n: int | -0x8000_0000_0000_0000 <= n < 0x8000_0000_0000_0000

  datatype Frame =
    | Probe(pathId: Byte, probeSeq: Uint64, timestamp: Int64, isEcho: bool, sessionId: Uint64, challenge: Uint64,
            padded: bool, padLen: Uint16, payload: seq<Byte>)
    | Control(controlType: Byte, number: Uint64, content: seq<Byte>)

  /** The keystream of a nonce, and the tag of a nonce and an obfuscated body: both fixed by the shared key. */
  datatype Keys = Keys(stream: (seq<Byte>, nat) -> Byte, tag: (seq<Byte>, seq<Byte>) -> seq<Byte>) {
    ghost predicate Valid() { forall nonce, body :: |tag(nonce, body)| == TAG_LEN }
  }

  datatype Decoded = Accepted(frame: Frame) | Malformed | Unauthentic

  // ----- bodies -----

  function ToUint64(v: Int64): Uint64 { if v >= 0 then v else v + UINT64 }

  function ToInt64(v: Uint64): Int64 { if v < 0x8000_0000_0000_0000 then v else v - UINT64 }

  function Flags(f: Frame): Byte
    requires f.Probe?
  {
    (if f.isEcho then 1 else 0) + (if f.padded then 2 else 0)
  }

  function Zeros(n: nat): (z: seq<Byte>)
    ensures |z| == n
  {
    seq(n, _ => 0)
  }

  function ProbeFields(f: Frame): (b: seq<Byte>)
    requires f.Probe?
    ensures |b| == PROBE_FIXED_BODY - 1
  {
    [f.pathId] + BigEndian(f.probeSeq, 8) + BigEndian(ToUint64(f.timestamp), 8) + [Flags(f)]
    + BigEndian(f.sessionId, 8) + BigEndian(f.challenge, 8)
  }

  /** The body behind the kind byte. */
  function Tail(f: Frame): seq<Byte> {
    if f.Probe? then ProbeFields(f) + if f.padded then BigEndian(f.padLen, 2) + Zeros(f.padLen) else f.payload
    else [f.controlType] + BigEndian(f.number, 8) + f.content
  }

  function KindOf(f: Frame): Byte { if f.Probe? then KIND_PROBE else KIND_CONTROL }

  function Body(f: Frame): (b: seq<Byte>)
    ensures |b| > 0
  {
    [KindOf(f)] + Tail(f)
  }

  /** What Encode accepts: a padded probe has no payload and stays within the largest size. */
  predicate Encodable(f: Frame) {
    f.Probe? && f.padded ==> f.payload == [] && PROBE_BASE_ON_WIRE + f.padLen <= MAX_PADDED_PROBE_ON_WIRE
  }

  /** decodeBody, as a function of the bytes behind the kind. */
  function ParseBody(kind: Byte, b: seq<Byte>): Decoded {
    if kind == KIND_PROBE then
      if |b| < PROBE_FIXED_BODY - 1 then Malformed
      else
        var flags := b[17];
        var f := Probe(b[0], Read64(b, 1), ToInt64(Read64(b, 9)), flags % 2 == 1, Read64(b, 18), Read64(b, 26),
          false, 0, []);
        if flags / 2 % 2 == 1 then
          if |b| < 36 || |b| != 36 + Read16(b, 34) then Malformed
          else Accepted(f.(padded := true, padLen := Read16(b, 34)))
        else Accepted(f.(payload := b[34..]))
    else if kind == KIND_CONTROL then
      if |b| < 9 then Malformed else Accepted(Control(b[0], Read64(b, 1), b[9..]))
    else Malformed
  }

  // ----- the wire -----

  /** The exclusive or of a body with the keystream of a nonce. */
  function Obfuscated(keys: Keys, nonce: seq<Byte>, body: seq<Byte>): (r: seq<Byte>)
    ensures |r| == |body| && forall i :: 0 <= i < |r| ==> r[i] == Xor(body[i], keys.stream(nonce, i))
  {
    seq<Byte>(|body|, i requires 0 <= i < |body| => Xor(body[i], keys.stream(nonce, i)))
  }

  function Encoding(keys: Keys, nonce: seq<Byte>, f: Frame): seq<Byte> {
    var obf := Obfuscated(keys, nonce, Body(f));
    nonce + obf + keys.tag(nonce, obf)
  }

  /** Decode, with the whole body uncovered by one exclusive or. */
  function Decoding(keys: Keys, raw: seq<Byte>): Decoded {
    if |raw| < NONCE_LEN + 1 then Malformed
    else
      var nonce, rest := raw[..NONCE_LEN], raw[NONCE_LEN..];
      var kind := Xor(rest[0], keys.stream(nonce, 0));
      if kind != KIND_PROBE && kind != KIND_CONTROL then Malformed
      else if |rest| < TAG_LEN + 1 then Malformed
      else
        var obf, got := rest[..|rest| - TAG_LEN], rest[|rest| - TAG_LEN..];
        if got != keys.tag(nonce, obf) then Unauthentic
        else
          var body := Obfuscated(keys, nonce, obf);
          ParseBody(body[0], body[1..])
  }

  // ----- the code -----

  /** A keystream in use: every byte it uncovers moves it on. */
  class Cipher {
    const keys: Keys
    const nonce: seq<Byte>
    var at: nat

    constructor (keys: Keys, nonce: seq<Byte>)
      ensures this.keys == keys && this.nonce == nonce && at == 0
    {
      this.keys, this.nonce, at := keys, nonce, 0;
    }

    /** XORKeyStream over the bytes of a buffer from a place on, in place. */
    method XorKeyStream(b: array<Byte>, from: nat)
      requires from <= b.Length
      modifies this, b
      ensures at == old(at) + b.Length - from
      ensures forall i :: 0 <= i < b.Length ==>
        b[i] == if i < from then old(b[i]) else Xor(old(b[i]), keys.stream(nonce, old(at) + i - from))
    {
      for i := from to b.Length
        invariant at == old(at) + i - from
        invariant forall j :: 0 <= j < b.Length ==>
          b[j] == if from <= j < i then Xor(old(b[j]), keys.stream(nonce, old(at) + j - from)) else old(b[j])
      {
        b[i] := Xor(b[i], keys.stream(nonce, at));
        at := at + 1;
      }
    }
  }

  method Buffer(s: seq<Byte>) returns (b: array<Byte>)
    ensures fresh(b) && b[..] == s
  {
    b := new Byte[|s|](i requires 0 <= i < |s| => s[i]);
  }

  /** Encode under a nonce drawn by the caller. */
  method Encode(keys: Keys, nonce: seq<Byte>, f: Frame) returns (wire: Option<seq<Byte>>)
    requires |nonce| == NONCE_LEN
    ensures wire == if Encodable(f) then Some(Encoding(keys, nonce, f)) else None
  {
    if !Encodable(f) {
      return None;
    }
    var body := Buffer(Body(f));
    var cipher := new Cipher(keys, nonce);
    cipher.XorKeyStream(body, 0);
    assert body[..] == Obfuscated(keys, nonce, Body(f));
    wire := Some(nonce + body[..] + keys.tag(nonce, body[..]));
  }

  /** Decode with one keystream in two passes: first the kind, then, once authenticated, the rest. */
  method Decode(keys: Keys, raw: seq<Byte>) returns (r: Decoded)
    ensures r == Decoding(keys, raw)
  {
    hide Xor, ParseBody;
    if |raw| < NONCE_LEN + 1 {
      return Malformed;
    }
    var nonce, rest := raw[..NONCE_LEN], raw[NONCE_LEN..];
    var cipher := new Cipher(keys, nonce);
    var kind := Buffer([rest[0]]);
    cipher.XorKeyStream(kind, 0);
    if kind[0] != KIND_PROBE && kind[0] != KIND_CONTROL {
      return Malformed;
    }
    if |rest| < TAG_LEN + 1 {
      return Malformed;
    }
    var obf, got := rest[..|rest| - TAG_LEN], rest[|rest| - TAG_LEN..];
    if got != keys.tag(nonce, obf) {
      return Unauthentic;
    }
    var body := Uncover(cipher, obf, kind[0]);
    r := DecodeBody(kind[0], body[1..]);
  }

  /** The whole body, once the first byte is uncovered and the keystream stands behind it. */
  method Uncover(cipher: Cipher, obf: seq<Byte>, kind: Byte) returns (body: seq<Byte>)
    requires obf != [] && cipher.at == 1 && kind == Xor(obf[0], cipher.keys.stream(cipher.nonce, 0))
    modifies cipher
    ensures body == Obfuscated(cipher.keys, cipher.nonce, obf)
  {
    hide Xor;
    var b := Buffer(obf);
    b[0] := kind;
    ghost var covered := b[..];
    assert forall i :: 1 <= i < |obf| ==> covered[i] == obf[i];
    if b.Length > 1 {
      cipher.XorKeyStream(b, 1);
    }
    body := b[..];
    ghost var plain := Obfuscated(cipher.keys, cipher.nonce, obf);
    forall i | 0 <= i < |obf| ensures body[i] == plain[i] {
      assert i >= 1 ==> covered[i] == obf[i];
    }
  }

  /** A fail-fast cursor over the body. */
  class Reader {
    const b: seq<Byte>
    var off: nat

    ghost predicate Valid()
      reads this
    {
      off <= |b|
    }

    constructor (b: seq<Byte>)
      ensures Valid() && this.b == b && off == 0
    {
      this.b, off := b, 0;
    }

    method Number(n: nat) returns (v: Option<nat>)
      requires Valid()
      modifies this`off
      ensures Valid() && v.Some? == (old(off) + n <= |b|) && off == old(off) + (if v.Some? then n else 0)
      ensures v.Some? ==> v.value == Read(b, old(off), n)
    {
      if off + n > |b| {
        return None;
      }
      v := Some(Value(b[off..off + n]));
      off := off + n;
    }

    method Rest() returns (r: seq<Byte>)
      requires Valid()
      modifies this`off
      ensures Valid() && r == b[old(off)..] && off == |b|
    {
      r := b[off..];
      off := |b|;
    }
  }

  method DecodeBody(kind: Byte, b: seq<Byte>) returns (r: Decoded)
    requires kind == KIND_PROBE || kind == KIND_CONTROL
    ensures r == ParseBody(kind, b)
  {
    hide Read;
    var reader := new Reader(b);
    OneByte(b);
    Powers();
    if kind == KIND_PROBE {
      var pathId := reader.Number(1);
      var probeSeq := reader.Number(8);
      var timestamp := reader.Number(8);
      var flags := reader.Number(1);
      var sessionId := reader.Number(8);
      var challenge := reader.Number(8);
      if pathId.None? || probeSeq.None? || timestamp.None? || flags.None? || sessionId.None? || challenge.None? {
        return Malformed;
      }
      var f := Probe(pathId.value, probeSeq.value, ToInt64(timestamp.value), flags.value % 2 == 1, sessionId.value,
        challenge.value, false, 0, []);
      if flags.value / 2 % 2 == 1 {
        var padLen := reader.Number(2);
        if padLen.None? {
          return Malformed;
        }
        var pad := reader.Rest();
        if |pad| != padLen.value {
          return Malformed;
        }
        return Accepted(f.(padded := true, padLen := padLen.value));
      }
      var rest := reader.Rest();
      return Accepted(f.(payload := rest));
    }
    var controlType := reader.Number(1);
    var number := reader.Number(8);
    if controlType.None? || number.None? {
      return Malformed;
    }
    var payload := reader.Rest();
    r := Accepted(Control(controlType.value, number.value, payload));
  }

  lemma {:induction false} OneByte(b: seq<Byte>)
    ensures forall at :: 0 <= at < |b| ==> Read(b, at, 1) == b[at]
  {
    forall at | 0 <= at < |b| ensures Read(b, at, 1) == b[at] {
      assert b[at..at + 1] == [b[at]];
      assert [b[at]][..0] == [];
    }
  }

  // ----- round trips -----

  lemma {:induction false} ObfuscatedTwice(keys: Keys, nonce: seq<Byte>, body: seq<Byte>)
    ensures Obfuscated(keys, nonce, Obfuscated(keys, nonce, body)) == body
  {
    var r := Obfuscated(keys, nonce, Obfuscated(keys, nonce, body));
    forall i | 0 <= i < |body| ensures r[i] == body[i] { XorUndoes(body[i], keys.stream(nonce, i)); }
  }

  lemma {:induction false} ReadBack(b: seq<Byte>, at: nat, v: nat, n: nat)
    requires at + n <= |b| && v < Power(n) && b[at..at + n] == BigEndian(v, n)
    ensures Read(b, at, n) == v
  {
    ValueOfBytes(v, n);
  }

  /** A frame as a decoder sees it: the pad length of an unpadded probe is not on the wire. */
  function Normal(f: Frame): Frame {
    if f.Probe? && !f.padded then f.(padLen := 0) else f
  }

  lemma {:induction false} ProbeFieldsAt(f: Frame, b: seq<Byte>)
    requires f.Probe? && ProbeFields(f) <= b
    ensures b[0] == f.pathId && Read64(b, 1) == f.probeSeq && ToInt64(Read64(b, 9)) == f.timestamp && b[17] == Flags(f)
    ensures Read64(b, 18) == f.sessionId && Read64(b, 26) == f.challenge
  {
    hide Read, BigEndian, Power;
    Powers();
    var h, q, t, fl := [f.pathId], BigEndian(f.probeSeq, 8), BigEndian(ToUint64(f.timestamp), 8), [Flags(f)];
    var i, c, y := BigEndian(f.sessionId, 8), BigEndian(f.challenge, 8), b[34..];
    assert b == h + q + t + fl + i + c + y;
    Field(b, h, f.probeSeq, t + fl + i + c + y);
    Field(b, h + q, ToUint64(f.timestamp), fl + i + c + y);
    Field(b, h + q + t + fl, f.sessionId, c + y);
    Field(b, h + q + t + fl + i, f.challenge, y);
    assert b[17] == fl[0];
  }

  lemma {:induction false} Field(b: seq<Byte>, x: seq<Byte>, v: Uint64, y: seq<Byte>)
    requires b == x + BigEndian(v, 8) + y
    ensures Read64(b, |x|) == v
  {
    hide Read;
    Powers();
    assert b[|x|..|x| + 8] == BigEndian(v, 8);
    ReadBack(b, |x|, v, 8);
  }

  lemma {:induction false} ProbeRoundTrip(f: Frame)
    requires f.Probe? && Encodable(f)
    ensures ParseBody(KIND_PROBE, Tail(f)) == Accepted(Normal(f))
  {
    hide Read64, ProbeFields;
    var b := Tail(f);
    assert b[..34] == ProbeFields(f);
    ProbeFieldsAt(f, b);
    if f.padded {
      Powers();
      assert b[34..36] == BigEndian(f.padLen, 2);
      ReadBack(b, 34, f.padLen, 2);
    } else {
      assert b[34..] == f.payload;
    }
  }

  lemma {:induction false} ControlRoundTrip(f: Frame)
    requires f.Control?
    ensures ParseBody(KIND_CONTROL, Tail(f)) == Accepted(f)
  {
    hide Read;
    Powers();
    var b := Tail(f);
    assert b[1..9] == BigEndian(f.number, 8) && b[9..] == f.content;
    ReadBack(b, 1, f.number, 8);
  }

  /**
   * Decoding what was encoded under the same keys gives the frame back, for every frame Encode accepts, up
   * to the pad length of an unpadded probe; so it is the same frame exactly when that is zero.
   */
  lemma {:induction false} WireRoundTrip(keys: Keys, nonce: seq<Byte>, f: Frame)
    requires keys.Valid() && |nonce| == NONCE_LEN && Encodable(f)
    ensures Decoding(keys, Encoding(keys, nonce, f)) == Accepted(Normal(f))
    ensures Decoding(keys, Encoding(keys, nonce, f)) == Accepted(f) <==> (f.Probe? && !f.padded ==> f.padLen == 0)
  {
    hide ParseBody, Xor, Tail;
    var body := Body(f);
    var obf := Obfuscated(keys, nonce, body);
    var tag := keys.tag(nonce, obf);
    var raw := Encoding(keys, nonce, f);
    ObfuscatedTwice(keys, nonce, body);
    assert raw[..NONCE_LEN] == nonce && raw[NONCE_LEN..] == obf + tag;
    assert (obf + tag)[..|obf|] == obf && (obf + tag)[|obf|..] == tag;
    XorUndoes(body[0], keys.stream(nonce, 0));
    assert body[1..] == Tail(f);
    if f.Probe? { ProbeRoundTrip(f); } else { ControlRoundTrip(f); }
  }

  /** Nothing is accepted without the tag of its nonce and body, whatever its kind byte uncovers to. */
  lemma {:induction false} AcceptedIsAuthentic(keys: Keys, raw: seq<Byte>)
    requires Decoding(keys, raw).Accepted?
    ensures |raw| >= NONCE_LEN + TAG_LEN + 1
    ensures raw[|raw| - TAG_LEN..] == keys.tag(raw[..NONCE_LEN], raw[NONCE_LEN..|raw| - TAG_LEN])
  {
    hide ParseBody, Xor;
    var rest := raw[NONCE_LEN..];
    assert rest[..|rest| - TAG_LEN] == raw[NONCE_LEN..|raw| - TAG_LEN];
    assert rest[|rest| - TAG_LEN..] == raw[|raw| - TAG_LEN..];
  }

  // ----- padded probes -----

  /** PadLenForOnWire */
  function PadLenFor(onWire: int): Option<Uint16> {
    if onWire < PROBE_BASE_ON_WIRE || onWire > MAX_PADDED_PROBE_ON_WIRE then None else Some(onWire - PROBE_BASE_ON_WIRE)
  }

  /** A probe padded for a size is encodable and has exactly that size on the wire; no other size can be had. */
  lemma {:induction false} PaddedSize(keys: Keys, nonce: seq<Byte>, f: Frame, onWire: int)
    requires keys.Valid() && |nonce| == NONCE_LEN && f.Probe? && f.padded && f.payload == []
    ensures Encodable(f) && |Encoding(keys, nonce, f)| == onWire <==> PadLenFor(onWire) == Some(f.padLen)
  {
    hide ProbeFields;
    var obf := Obfuscated(keys, nonce, Body(f));
    assert |keys.tag(nonce, obf)| == TAG_LEN;
    assert |Body(f)| == 1 + 34 + 2 + f.padLen;
  }
}
