/** The invariant of any number of transports and the network between them. */
module NetworkLaws {
  import Basics
  import opened Packets
  import opened ReceiptWindows
  import opened TransportState
  import opened TransportLaws
  import opened Network

  // ----- sender side -----

  /** The frames of a channel name it and are numbered from one. */
  ghost predicate LogOk(log: seq<Data>, c: Channel) {
    forall k :: 0 <= k < |log| ==>
      log[k].src == c.src && log[k].dst == c.dst && log[k].lane == c.lane && log[k].attempt == k + 1
  }

  /** The bytes a lane had sent before the first frame of this log. */
  function Base(p: Lane, log: seq<Data>): int {
    p.sent - Total(log, |log|)
  }

  ghost predicate AttemptOk(a: Attempt, s: nat, log: seq<Data>, base: int) {
    && 1 <= s <= |log|
    && a.bytes == WireBytes(log[s - 1].payload)
    && a.through == base + Total(log, s)
    && (a.carried.Datagram? ==> log[s - 1].number == a.carried.number)
  }

  /** A lane remembers its own frames, and knows the bytes sent through the highest one reported or nothing. */
  ghost predicate SentOk(p: Lane, log: seq<Data>) {
    && |log| == p.counter && Base(p, log) >= 0
    && (forall s :: s in p.attempts ==> AttemptOk(p.attempts[s], s, log, Base(p, log)))
    && (p.receivedThrough == 0
        || (1 <= p.receivedHigh <= |log| && p.receivedThrough == Base(p, log) + Total(log, p.receivedHigh)))
  }

  /** What a lane knows of the peer is what the newest accepted acknowledgement said. */
  ghost predicate FedOk(p: Lane, acks: seq<Ack>) {
    && p.ackRevision <= |acks| && p.ackReceipts.Valid() && p.ackReceipts.high == p.ackRevision
    && if p.ackRevision == 0 then p.ackedBytes == 0 && p.ackedElapsed == 0 && p.receivedHigh == 0
       else var b := acks[p.ackRevision - 1].body;
         p.ackedBytes == b.bytes && p.ackedElapsed == b.elapsed && p.receivedHigh == b.high
  }

  /** Every frame carries a datagram the sender numbered, as the sender has it. */
  ghost predicate ContentOk(log: seq<Data>, packets: map<nat, Packet>) {
    forall k :: 0 <= k < |log| && log[k].number != 0 ==>
      log[k].number in packets
      && log[k].order == packets[log[k].number].order && log[k].payload == packets[log[k].number].payload
  }

  ghost predicate SenderLaneOk(net: Net, p: Lane, src: Epoch, dst: Epoch, packets: map<nat, Packet>) {
    && SentOk(p, DataLog(net, Channel(src, dst, p.id)))
    && FedOk(p, AckLog(net, Channel(dst, src, p.id)))
    && ContentOk(DataLog(net, Channel(src, dst, p.id)), packets)
  }

  ghost predicate SenderOk(net: Net, lanes: seq<Lane>, src: Epoch, dst: Epoch, packets: map<nat, Packet>) {
    && (forall i :: 0 <= i < |lanes| ==> SenderLaneOk(net, lanes[i], src, dst, packets))
    && (forall id :: Find(lanes, id) == |lanes| ==> DataLog(net, Channel(src, dst, id)) == [])
  }

  // ----- receiver side -----

  /** A receiver holds exactly what arrived on its channel, and its acknowledgements lag behind. */
  ghost predicate ReceiverLaneOk(r: Receiver, log: seq<Data>, x: set<nat>, acks: seq<Ack>) {
    && r.receipts.Valid() && r.receipts.high <= |log|
    && (forall s :: s in x ==> 1 <= s <= r.receipts.high) && (r.receipts.high == 0 || r.receipts.high in x)
    && (forall s :: s in r.receipts.marks <==> s in x && r.receipts.high - s < MAX_PACKETS)
    && r.bytes == Bytes(log, x, r.receipts.high)
    && r.revision == |acks|
    && (acks != [] ==>
          var b := acks[|acks| - 1].body;
          b.high <= r.receipts.high && b.bytes <= r.bytes && b.elapsed <= Span(r.start, r.highAt))
  }

  ghost predicate ReceiverSideOk(net: Net, receivers: map<PathId, Receiver>, src: Epoch, dst: Epoch, k: PathId) {
    if k in receivers then
      ReceiverLaneOk(receivers[k], DataLog(net, Channel(src, dst, k)), Arrived(net, Channel(src, dst, k)),
                     AckLog(net, Channel(dst, src, k)))
    else Arrived(net, Channel(src, dst, k)) == {} && AckLog(net, Channel(dst, src, k)) == []
  }

  ghost predicate ReceiversSideOk(net: Net, receivers: map<PathId, Receiver>, src: Epoch, dst: Epoch) {
    forall k :: ReceiverSideOk(net, receivers, src, dst, k)
  }

  /** The frame x of channel c arrived and carries the datagram n. */
  ghost predicate Brings(net: Net, c: Channel, x: nat, n: nat) {
    x in Arrived(net, c) && 1 <= x <= |DataLog(net, c)| && DataLog(net, c)[x - 1].number == n
  }

  /** Some data frame carrying datagram n of this pair of epochs reached its destination. */
  ghost predicate Reached(net: Net, src: Epoch, dst: Epoch, n: nat) {
    exists k, x :: Brings(net, Channel(src, dst, k), x, n)
  }

  ghost predicate Tells(net: Net, c: Channel, i: nat, n: nat) {
    i < |AckLog(net, c)| && AckLog(net, c)[i].body.Received(n)
  }

  /** Some acknowledgement from b to a reports datagram n received. */
  ghost predicate ReportedBack(net: Net, b: Epoch, a: Epoch, n: nat) {
    exists k, i :: Tells(net, Channel(b, a, k), i, n)
  }

  /** What was delivered, each number once, is what the receipt window records of it. */
  ghost predicate WindowOk(delivered: seq<nat>, received: Window) {
    && Basics.Distinct(delivered)
    && (forall n :: n in delivered ==> 1 <= n <= received.high)
    && (forall n :: n in received.marks <==> n in delivered && received.high - n < MAX_PACKETS)
    && (received.high == 0 || received.high in delivered)
  }

  ghost predicate DeliveryOk(net: Net, received: Window, unreported: Window, src: Epoch, dst: Epoch) {
    && WindowOk(DeliveredLog(net, src, dst), received)
    && (forall n :: n in DeliveredLog(net, src, dst) ==> Reached(net, src, dst, n))
    && (forall n :: n in DeliveredLog(net, src, dst) ==>
          n in unreported.marks || received.high - n >= MAX_PACKETS || ReportedBack(net, dst, src, n))
  }

  ghost predicate AckedOk(net: Net, acked: set<nat>, src: Epoch, dst: Epoch) {
    forall n :: n in acked ==> Reached(net, src, dst, n)
  }

  // ----- acknowledgements on the wire -----

  ghost predicate AckOk(f: Ack, i: nat, c: Channel, log: seq<Data>, x: set<nat>) {
    && f.revision == i + 1 && f.src == c.src && f.lane == c.lane && f.body.observed == c.dst
    && f.body.high <= |log|
    && (forall s :: f.body.Reports(s) ==> s in x)
    && f.body.bytes <= Bytes(log, x, f.body.high)
  }

  ghost predicate TellsTruth(net: Net, f: Ack, c: Channel) {
    && (forall n :: f.body.Received(n) ==> Reached(net, c.dst, c.src, n))
    && (f.body.receivedHigh == 0 || exists m :: f.body.receivedHigh <= m && Reached(net, c.dst, c.src, m))
  }

  ghost predicate Later(f: Ack, g: Ack) {
    f.body.high <= g.body.high && f.body.bytes <= g.body.bytes && f.body.elapsed <= g.body.elapsed
  }

  function Back(c: Channel): Channel {
    Channel(c.dst, c.src, c.lane)
  }

  ghost predicate AckLogOk(net: Net, c: Channel) {
    var acks := AckLog(net, c);
    && (forall i :: 0 <= i < |acks| ==>
          AckOk(acks[i], i, c, DataLog(net, Back(c)), Arrived(net, Back(c))) && TellsTruth(net, acks[i], c))
    && (forall i, j :: 0 <= i < j < |acks| ==> Later(acks[i], acks[j]))
  }

  // ----- the whole -----

  /** Epochs are only left for newer ones, and before the first there was none. */
  ghost predicate HeldOk(remote: Epoch, held: set<Epoch>) {
    && remote in held && (remote.boot == 0 ==> held == {remote})
    && forall h :: h in held && h.boot == remote.boot ==> h.generation <= remote.generation
  }

  ghost predicate NodeOk(net: Net, t: State) {
    && Inv(t) && HeldOk(t.remote, t.held)
    && SenderOk(net, t.lanes, t.epoch, t.remote, t.packets)
    && ReceiversSideOk(net, t.receivers, t.remote, t.epoch)
    && DeliveryOk(net, t.received, t.unreported, t.remote, t.epoch)
    && AckedOk(net, t.acked, t.epoch, t.remote)
  }

  /** Nothing was ever sent to, or received from, an epoch a transport has not adopted. */
  ghost predicate ChannelOk(net: Net, c: Channel) {
    && (DataLog(net, c) != [] ==> c.src in net.nodes && c.dst in net.nodes[c.src].held)
    && (AckLog(net, c) != [] ==> c.src in net.nodes && c.dst in net.nodes[c.src].held)
    && (Arrived(net, c) != {} ==> c.dst in net.nodes && c.src in net.nodes[c.dst].held)
    && LogOk(DataLog(net, c), c)
  }

  ghost predicate PairOk(net: Net, src: Epoch, dst: Epoch) {
    && (DeliveredLog(net, src, dst) != [] ==> dst in net.nodes && src in net.nodes[dst].held)
    && Basics.Distinct(DeliveredLog(net, src, dst))
  }

  ghost predicate NetOk(net: Net) {
    && (forall e :: e in net.nodes ==> net.nodes[e].epoch == e && NodeOk(net, net.nodes[e]))
    && (forall c :: ChannelOk(net, c) && AckLogOk(net, c))
    && (forall src, dst :: PairOk(net, src, dst))
  }

  lemma {:induction false} EmptyOk()
    ensures NetOk(EMPTY_NET)
  {
  }

  // ----- growth -----

  /** net' is net after transport e took a step. */
  ghost predicate Extends(net: Net, net': Net, e: Epoch) {
    && (forall f :: f != e ==> (f in net.nodes <==> f in net'.nodes))
    && (forall f :: f != e && f in net.nodes ==> net'.nodes[f] == net.nodes[f])
    && (forall c :: DataLog(net, c) <= DataLog(net', c) && AckLog(net, c) <= AckLog(net', c))
    && (forall c :: Arrived(net, c) <= Arrived(net', c))
    && (forall c: Channel :: c.src != e ==> DataLog(net', c) == DataLog(net, c) && AckLog(net', c) == AckLog(net, c))
    && (forall c: Channel :: c.dst != e ==> Arrived(net', c) == Arrived(net, c))
    && (forall a, b :: DeliveredLog(net, a, b) <= DeliveredLog(net', a, b))
    && (forall a, b :: b != e ==> DeliveredLog(net', a, b) == DeliveredLog(net, a, b))
  }

  lemma {:induction false} ReachedGrows(net: Net, net': Net, e: Epoch, src: Epoch, dst: Epoch, n: nat)
    requires Extends(net, net', e) && Reached(net, src, dst, n)
    ensures Reached(net', src, dst, n)
  {
    var k, x :| Brings(net, Channel(src, dst, k), x, n);
    assert DataLog(net, Channel(src, dst, k)) <= DataLog(net', Channel(src, dst, k));
    assert Brings(net', Channel(src, dst, k), x, n);
  }

  lemma {:induction false} ReportedBackGrows(net: Net, net': Net, e: Epoch, b: Epoch, a: Epoch, n: nat)
    requires Extends(net, net', e) && ReportedBack(net, b, a, n)
    ensures ReportedBack(net', b, a, n)
  {
    var k, i :| Tells(net, Channel(b, a, k), i, n);
    assert AckLog(net, Channel(b, a, k)) <= AckLog(net', Channel(b, a, k));
    assert Tells(net', Channel(b, a, k), i, n);
  }

  lemma {:induction false} AckOkGrows(
    f: Ack, i: nat, c: Channel, log: seq<Data>, x: set<nat>, log': seq<Data>, x': set<nat>)
    requires AckOk(f, i, c, log, x) && log <= log' && x <= x'
    ensures AckOk(f, i, c, log', x')
  {
    BytesGrow(log, log', x, x', f.body.high);
  }

  lemma {:induction false} TellsTruthGrows(net: Net, net': Net, e: Epoch, f: Ack, c: Channel)
    requires Extends(net, net', e) && TellsTruth(net, f, c)
    ensures TellsTruth(net', f, c)
  {
    forall n | f.body.Received(n) ensures Reached(net', c.dst, c.src, n) {
      ReachedGrows(net, net', e, c.dst, c.src, n);
    }
    if f.body.receivedHigh != 0 {
      var m :| f.body.receivedHigh <= m && Reached(net, c.dst, c.src, m);
      ReachedGrows(net, net', e, c.dst, c.src, m);
    }
  }

  lemma {:induction false} FedOkGrows(p: Lane, acks: seq<Ack>, acks': seq<Ack>)
    requires FedOk(p, acks) && acks <= acks'
    ensures FedOk(p, acks')
  {
  }

  lemma {:induction false} ReceiverLaneGrows(r: Receiver, log: seq<Data>, log': seq<Data>, x: set<nat>, acks: seq<Ack>)
    requires ReceiverLaneOk(r, log, x, acks) && log <= log'
    ensures ReceiverLaneOk(r, log', x, acks)
  {
    BytesSame(log, log', x, x, r.receipts.high);
  }

  /** The acknowledgements already sent stay true. */
  lemma {:induction false} AckLogGrows(net: Net, net': Net, e: Epoch, c: Channel)
    requires Extends(net, net', e) && AckLogOk(net, c) && AckLog(net', c) == AckLog(net, c)
    ensures AckLogOk(net', c)
  {
    hide AckOk, TellsTruth, Later;
    forall i | 0 <= i < |AckLog(net, c)|
      ensures AckOk(AckLog(net', c)[i], i, c, DataLog(net', Back(c)), Arrived(net', Back(c)))
      ensures TellsTruth(net', AckLog(net', c)[i], c)
    {
      AckOkGrows(AckLog(net, c)[i], i, c, DataLog(net, Back(c)), Arrived(net, Back(c)),
                 DataLog(net', Back(c)), Arrived(net', Back(c)));
      TellsTruthGrows(net, net', e, AckLog(net, c)[i], c);
    }
  }

  /** Nothing was added to the data channels from src to dst. */
  ghost predicate SameData(net: Net, net': Net, src: Epoch, dst: Epoch) {
    forall id :: DataLog(net', Channel(src, dst, id)) == DataLog(net, Channel(src, dst, id))
  }

  /** Nothing arrived on the channels from src to dst, and no acknowledgement went back. */
  ghost predicate SameArrivals(net: Net, net': Net, src: Epoch, dst: Epoch) {
    forall k :: Arrived(net', Channel(src, dst, k)) == Arrived(net, Channel(src, dst, k))
             && AckLog(net', Channel(dst, src, k)) == AckLog(net, Channel(dst, src, k))
  }

  /** A step of one transport touches nothing another one sent or received. */
  lemma {:induction false} OthersQuiet(net: Net, net': Net, e: Epoch, f: Epoch, g: Epoch)
    requires Extends(net, net', e) && f != e
    ensures SameData(net, net', f, g) && SameArrivals(net, net', g, f)
      && DeliveredLog(net', g, f) == DeliveredLog(net, g, f)
  {
  }

  lemma {:induction false} NodeOf(net: Net, f: Epoch)
    requires NetOk(net) && f in net.nodes
    ensures net.nodes[f].epoch == f && NodeOk(net, net.nodes[f])
  {
    hide NodeOk, ChannelOk, AckLogOk, PairOk;
  }

  /** A step of one transport keeps the invariant of every other. */
  lemma {:induction false} OtherNode(net: Net, net': Net, e: Epoch, f: Epoch)
    requires NetOk(net) && Extends(net, net', e) && f != e && f in net.nodes
    ensures NodeOk(net', net.nodes[f])
  {
    hide NetOk, Extends, Inv, SenderOk, ReceiversSideOk, DeliveryOk, AckedOk, SameData, SameArrivals;
    var t := net.nodes[f];
    NodeOf(net, f);
    OthersQuiet(net, net', e, f, t.remote);
    SenderGrows(net, net', e, t.lanes, t.epoch, t.remote, t.packets);
    ReceiversGrow(net, net', e, t.receivers, t.remote, t.epoch);
    DeliveryGrows(net, net', e, t);
  }

  lemma {:induction false} SenderGrows(
    net: Net, net': Net, e: Epoch, lanes: seq<Lane>, src: Epoch, dst: Epoch, packets: map<nat, Packet>)
    requires Extends(net, net', e) && SameData(net, net', src, dst) && SenderOk(net, lanes, src, dst, packets)
    ensures SenderOk(net', lanes, src, dst, packets)
  {
    hide SentOk, FedOk, ContentOk;
    forall i | 0 <= i < |lanes| ensures SenderLaneOk(net', lanes[i], src, dst, packets) {
      FedOkGrows(lanes[i], AckLog(net, Channel(dst, src, lanes[i].id)), AckLog(net', Channel(dst, src, lanes[i].id)));
    }
  }

  lemma {:induction false} ReceiverGrows(
    net: Net, net': Net, e: Epoch, receivers: map<PathId, Receiver>, src: Epoch, dst: Epoch, k: PathId)
    requires Extends(net, net', e) && ReceiverSideOk(net, receivers, src, dst, k)
    requires Arrived(net', Channel(src, dst, k)) == Arrived(net, Channel(src, dst, k))
    requires AckLog(net', Channel(dst, src, k)) == AckLog(net, Channel(dst, src, k))
    ensures ReceiverSideOk(net', receivers, src, dst, k)
  {
    hide ReceiverLaneOk;
    if k in receivers {
      ReceiverLaneGrows(receivers[k], DataLog(net, Channel(src, dst, k)), DataLog(net', Channel(src, dst, k)),
                        Arrived(net, Channel(src, dst, k)), AckLog(net, Channel(dst, src, k)));
    }
  }

  lemma {:induction false} ReceiversGrow(
    net: Net, net': Net, e: Epoch, receivers: map<PathId, Receiver>, src: Epoch, dst: Epoch)
    requires Extends(net, net', e) && SameArrivals(net, net', src, dst) && ReceiversSideOk(net, receivers, src, dst)
    ensures ReceiversSideOk(net', receivers, src, dst)
  {
    hide ReceiverSideOk;
    forall k ensures ReceiverSideOk(net', receivers, src, dst, k) {
      ReceiverGrows(net, net', e, receivers, src, dst, k);
    }
  }

  lemma {:induction false} DeliveryGrows(net: Net, net': Net, e: Epoch, t: State)
    requires Extends(net, net', e)
    requires DeliveryOk(net, t.received, t.unreported, t.remote, t.epoch) && AckedOk(net, t.acked, t.epoch, t.remote)
    requires DeliveredLog(net', t.remote, t.epoch) == DeliveredLog(net, t.remote, t.epoch)
    ensures DeliveryOk(net', t.received, t.unreported, t.remote, t.epoch) && AckedOk(net', t.acked, t.epoch, t.remote)
  {
    hide Reached, ReportedBack, WindowOk;
    forall n | n in DeliveredLog(net, t.remote, t.epoch)
      ensures Reached(net', t.remote, t.epoch, n)
      ensures n in t.unreported.marks || t.received.high - n >= MAX_PACKETS || ReportedBack(net', t.epoch, t.remote, n)
    {
      ReachedGrows(net, net', e, t.remote, t.epoch, n);
      if ReportedBack(net, t.epoch, t.remote, n) { ReportedBackGrows(net, net', e, t.epoch, t.remote, n); }
    }
    forall n | n in t.acked ensures Reached(net', t.epoch, t.remote, n) {
      ReachedGrows(net, net', e, t.epoch, t.remote, n);
    }
  }
}
