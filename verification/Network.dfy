/**
 * Transports joined by a network that loses, repeats and reorders frames. Every frame ever sent stays
 * in the log of its channel and may be handed to its receiver any number of times, in any order, or never.
 */
module Network {
  import opened Packets
  import opened TransportState
  import opened TransportSteps

  /** One direction of one lane between two endpoint generations. */
  datatype Channel = Channel(src: Epoch, dst: Epoch, lane: PathId)

  /**
   * nodes holds the transports by epoch. data and acks are the frames sent, in order; arrived is the
   * lane numbers that reached the receiver, and delivered the datagram numbers it handed on.
   */
  datatype Net = Net(
    nodes: map<Epoch, State>,
    data: map<Channel, seq<Data>>, acks: map<Channel, seq<Ack>>,
    arrived: map<Channel, set<nat>>, delivered: map<(Epoch, Epoch), seq<nat>>)

  function DataLog(net: Net, c: Channel): seq<Data> {
    if c in net.data then net.data[c] else []
  }

  function AckLog(net: Net, c: Channel): seq<Ack> {
    if c in net.acks then net.acks[c] else []
  }

  function Arrived(net: Net, c: Channel): set<nat> {
    if c in net.arrived then net.arrived[c] else {}
  }

  function DeliveredLog(net: Net, src: Epoch, dst: Epoch): seq<nat> {
    if (src, dst) in net.delivered then net.delivered[(src, dst)] else []
  }

  const EMPTY_NET: Net := Net(map[], map[], map[], map[], map[])

  // ----- steps -----

  /** A data frame the network can hand over: one that was sent. */
  predicate WasSent(net: Net, d: Data) {
    var log := DataLog(net, Channel(d.src, d.dst, d.lane));
    1 <= d.attempt <= |log| && log[d.attempt - 1] == d
  }

  predicate AckWasSent(net: Net, f: Ack) {
    var log := AckLog(net, Channel(f.src, f.body.observed, f.lane));
    1 <= f.revision <= |log| && log[f.revision - 1] == f
  }

  /**
   * The assumption on the reflector that vouches for an adopted epoch: an epoch of another boot is newer
   * than any this transport has held of that boot. Calls that are not adopted are free, as are repeats.
   */
  predicate Proven(t: State, epoch: Epoch) {
    epoch.boot != t.remote.boot ==> forall h :: h in t.held && h.boot == epoch.boot ==> h.generation < epoch.generation
  }

  ghost predicate NetEnabled(net: Net, e: Epoch, op: Op) {
    && e in net.nodes && Enabled(net.nodes[e], op)
    && (op.DataOp? ==> WasSent(net, op.data))
    && (op.AckOp? ==> AckWasSent(net, op.frame))
    && (op.SetRemoteOp? && op.adopted ==> Proven(net.nodes[e], op.epoch))
  }

  /** The frame is the first of its lane number to reach this transport. */
  predicate Arrives(t: State, op: Op) {
    && op.DataOp? && DataRefusal(t, op.path, op.data, op.now).None?
    && ReceiverFor(t, op.path, op.data.lane, op.now).receipts.Accepts(op.data.attempt)
  }

  function NetStep(net: Net, e: Epoch, op: Op): Net
    requires NetEnabled(net, e, op)
  {
    var t := net.nodes[e];
    var out := Out(t, op);
    Net(
      net.nodes[e := Step(t, op)],
      if out.SentData? then
        var c := Channel(out.data.src, out.data.dst, out.data.lane); net.data[c := DataLog(net, c) + [out.data]]
      else net.data,
      if out.SentAck? then
        var c := Channel(out.ack.src, out.ack.body.observed, out.ack.lane); net.acks[c := AckLog(net, c) + [out.ack]]
      else net.acks,
      if Arrives(t, op) then
        var c := Channel(op.data.src, op.data.dst, op.data.lane); net.arrived[c := Arrived(net, c) + {op.data.attempt}]
      else net.arrived,
      if out.Delivered? then
        net.delivered[(t.remote, e) := DeliveredLog(net, t.remote, e) + [out.number]]
      else net.delivered)
  }

  function AddNode(net: Net, e: Epoch): Net {
    net.(nodes := net.nodes[e := New(e)])
  }

  // ----- bytes on a channel -----

  /** The bytes of the first n frames that are in x. */
  function Bytes(log: seq<Data>, x: set<nat>, n: nat): nat
    requires n <= |log|
  {
    if n == 0 then 0 else Bytes(log, x, n - 1) + if n in x then WireBytes(log[n - 1].payload) else 0
  }

  /** The bytes of the first n frames. */
  function Total(log: seq<Data>, n: nat): nat
    requires n <= |log|
  {
    if n == 0 then 0 else Total(log, n - 1) + WireBytes(log[n - 1].payload)
  }

  lemma {:induction false} BytesBound(log: seq<Data>, x: set<nat>, n: nat)
    requires n <= |log|
    ensures Bytes(log, x, n) <= Total(log, n)
  {
    if n > 0 { BytesBound(log, x, n - 1); }
  }

  /** Equal totals: when the received bytes are all the bytes of a prefix, every frame of it arrived. */
  lemma {:induction false} EqualTotals(log: seq<Data>, x: set<nat>, n: nat, s: nat)
    requires 1 <= s <= n <= |log| && Bytes(log, x, n) >= Total(log, n)
    ensures s in x
  {
    BytesBound(log, x, n - 1);
    if s < n { EqualTotals(log, x, n - 1, s); }
  }

  lemma {:induction false} BytesGrow(log: seq<Data>, log': seq<Data>, x: set<nat>, x': set<nat>, n: nat)
    requires n <= |log| && log <= log' && x <= x'
    ensures Bytes(log, x, n) <= Bytes(log', x', n)
  {
    if n > 0 { BytesGrow(log, log', x, x', n - 1); }
  }

  lemma {:induction false} BytesSame(log: seq<Data>, log': seq<Data>, x: set<nat>, x': set<nat>, n: nat)
    requires n <= |log| && log <= log' && forall s :: 1 <= s <= n ==> (s in x <==> s in x')
    ensures Bytes(log, x, n) == Bytes(log', x', n)
  {
    if n > 0 { BytesSame(log, log', x, x', n - 1); }
  }

  lemma {:induction false} TotalSame(log: seq<Data>, log': seq<Data>, n: nat)
    requires n <= |log| && log <= log'
    ensures Total(log, n) == Total(log', n)
  {
    if n > 0 { TotalSame(log, log', n - 1); }
  }

  lemma {:induction false} BytesAdd(log: seq<Data>, x: set<nat>, s: nat, n: nat)
    requires 1 <= s <= |log| && n <= |log| && s !in x
    ensures Bytes(log, x + {s}, n) == Bytes(log, x, n) + if s <= n then WireBytes(log[s - 1].payload) else 0
  {
    if n > 0 { BytesAdd(log, x, s, n - 1); }
  }

  lemma {:induction false} BytesPast(log: seq<Data>, x: set<nat>, m: nat, n: nat)
    requires m <= n <= |log| && forall s :: s in x ==> s <= m
    ensures Bytes(log, x, n) == Bytes(log, x, m)
  {
    if m < n { BytesPast(log, x, m, n - 1); }
  }
}
