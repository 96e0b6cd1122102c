/** Every step of every transport keeps the network invariant. */
module NetworkSteps {
  import opened Packets
  import opened TransportState
  import opened TransportSteps
  import opened TransportLaws
  import TransportRuns
  import opened AckLaws
  import opened Network
  import opened NetworkLaws

  // ----- steps change only the stepping transport's own channels -----

  lemma {:induction false} OutAddress(t: State, op: Op)
    requires Enabled(t, op)
    ensures Out(t, op).SentData? ==> Out(t, op).data.src == t.epoch && Out(t, op).data.dst == t.remote
    ensures Out(t, op).SentAck? ==> Out(t, op).ack.src == t.epoch && Out(t, op).ack.body.observed == t.remote
    ensures Out(t, op).Delivered? ==> Arrives(t, op)
    ensures Arrives(t, op) ==> op.data.src == t.remote && op.data.dst == t.epoch
  {
    hide ReceiveAck;
    match op {
      case AckOp(path, f, late, now) => TransportRuns.AckFrame(t, path, f, late, now); AckQuiet(t, path, f, late, now);
      case SendOp(c, i, now) => TransportRuns.PopPackets(t, c);
      case _ =>
    }
  }

  lemma {:induction false} AckQuiet(t: State, path: PathId, f: Ack, late: set<nat>, now: Time)
    ensures var o := ReceiveAck(t, path, f, late, now).1; o.Quiet? || o.Refused?
  {
    hide ApplyAck;
  }

  function SentOn(out: Output, c: Channel): seq<Data> {
    if out.SentData? && c == Channel(out.data.src, out.data.dst, out.data.lane) then [out.data] else []
  }

  function AckedOn(out: Output, c: Channel): seq<Ack> {
    if out.SentAck? && c == Channel(out.ack.src, out.ack.body.observed, out.ack.lane) then [out.ack] else []
  }

  /** What one step adds to a channel. */
  lemma {:induction false} StepLogs(net: Net, e: Epoch, op: Op, c: Channel)
    requires NetEnabled(net, e, op)
    ensures var net', out := NetStep(net, e, op), Out(net.nodes[e], op);
      && DataLog(net', c) == DataLog(net, c) + SentOn(out, c)
      && AckLog(net', c) == AckLog(net, c) + AckedOn(out, c)
      && Arrived(net', c) == Arrived(net, c) +
         (if Arrives(net.nodes[e], op) && c == Channel(op.data.src, op.data.dst, op.data.lane)
          then {op.data.attempt} else {})
  {
    hide Step, Out, Arrives, Enabled;
  }

  lemma {:induction false} StepDelivered(net: Net, e: Epoch, op: Op, a: Epoch, b: Epoch)
    requires NetEnabled(net, e, op)
    ensures var net', out := NetStep(net, e, op), Out(net.nodes[e], op);
      DeliveredLog(net', a, b) == DeliveredLog(net, a, b) +
        if out.Delivered? && a == net.nodes[e].remote && b == e then [out.number] else []
  {
    hide Step, Out, Arrives, Enabled;
  }

  lemma {:induction false} StepExtends(net: Net, e: Epoch, op: Op)
    requires NetEnabled(net, e, op) && net.nodes[e].epoch == e
    ensures Extends(net, NetStep(net, e, op), e)
  {
    hide Step, Out, Arrives, Enabled, DataLog, AckLog, Arrived, DeliveredLog;
    var net' := NetStep(net, e, op);
    OutAddress(net.nodes[e], op);
    forall c: Channel
      ensures DataLog(net, c) <= DataLog(net', c) && AckLog(net, c) <= AckLog(net', c)
        && Arrived(net, c) <= Arrived(net', c)
      ensures c.src != e ==> DataLog(net', c) == DataLog(net, c) && AckLog(net', c) == AckLog(net, c)
      ensures c.dst != e ==> Arrived(net', c) == Arrived(net, c)
    {
      StepLogs(net, e, op, c);
    }
    forall a, b
      ensures DeliveredLog(net, a, b) <= DeliveredLog(net', a, b)
      ensures b != e ==> DeliveredLog(net', a, b) == DeliveredLog(net, a, b)
    {
      StepDelivered(net, e, op, a, b);
    }
  }

  // ----- lanes -----

  lemma {:induction false} PartLane(net: Net, p: Lane, p': Lane, src: Epoch, dst: Epoch, packets: map<nat, Packet>)
    requires SenderLaneOk(net, p, src, dst, packets) && Part(p, p') && SameFeedback(p, p')
    ensures SenderLaneOk(net, p', src, dst, packets)
  {
    hide ContentOk;
  }

  /** Lanes that keep part of their transmissions, and new ones, keep the sender's invariant. */
  lemma {:induction false} PartLanes(
    net: Net, lanes: seq<Lane>, lanes': seq<Lane>, src: Epoch, dst: Epoch, packets: map<nat, Packet>)
    requires SenderOk(net, lanes, src, dst, packets) && |lanes'| == |lanes|
    requires forall i :: 0 <= i < |lanes| ==> Part(lanes[i], lanes'[i]) && SameFeedback(lanes[i], lanes'[i])
    ensures SenderOk(net, lanes', src, dst, packets)
  {
    hide SenderLaneOk, SameFeedback;
    forall i | 0 <= i < |lanes| ensures SenderLaneOk(net, lanes'[i], src, dst, packets) {
      PartLane(net, lanes[i], lanes'[i], src, dst, packets);
    }
    SameIds(lanes, lanes');
  }

  lemma {:induction false} SameIds(lanes: seq<Lane>, lanes': seq<Lane>)
    requires |lanes'| == |lanes| && forall i :: 0 <= i < |lanes| ==> lanes'[i].id == lanes[i].id
    ensures forall id :: Find(lanes', id) == Find(lanes, id)
  {
    forall id ensures Find(lanes', id) == Find(lanes, id) {
      var i, j := Find(lanes, id), Find(lanes', id);
      assert i < |lanes| ==> lanes'[i].id == id;
      assert j < |lanes| ==> lanes[j].id == id;
    }
  }

  lemma {:induction false} NewLaneOk(
    net: Net, lanes: seq<Lane>, id: PathId, remoteId: PathId, now: Time, src: Epoch, dst: Epoch,
    packets: map<nat, Packet>)
    requires SenderOk(net, lanes, src, dst, packets) && Find(lanes, id) == |lanes|
    ensures SenderOk(net, lanes + [NewLane(id, remoteId, now)], src, dst, packets)
  {
    var lanes' := lanes + [NewLane(id, remoteId, now)];
    assert SenderLaneOk(net, lanes'[|lanes|], src, dst, packets);
    forall k | Find(lanes', k) == |lanes'| ensures DataLog(net, Channel(src, dst, k)) == [] {
      assert forall i :: 0 <= i < |lanes| ==> lanes'[i].id == lanes[i].id;
      assert Find(lanes, k) == |lanes|;
    }
  }

  // ----- steps without frames -----

  predicate Silent(op: Op) {
    op.PathOp? || op.DisableOp? || op.EnqueueOp? || op.TimeOutOp? || op.ForgetOp? || op.ExpireOp? || op.DropOp?
  }

  /** The fields the network invariant reads, apart from the lanes. */
  ghost predicate SameOutside(t: State, r: State) {
    && r.epoch == t.epoch && r.remote == t.remote && r.held == t.held
    && r.packets == t.packets && r.acked == t.acked
    && r.receivers == t.receivers && r.received == t.received && r.unreported == t.unreported
  }

  lemma {:induction false} EnqueueOutside(t: State, payload: seq<Byte>, flow: FlowId, ack: TcpAck, age: nat, now: Time)
    ensures var r := Enqueue(t, payload, flow, ack, age, now); SameOutside(t, r) && r.lanes == t.lanes
  {
    hide FairQueues.Push, FairQueues.Coalesces, FairQueues.Waiting;
  }

  lemma {:induction false} PopOutside(t: State, c: Class)
    requires QueuesValid(t) && HeadOf(t, c).Some?
    ensures var r := PopQueue(t, c); SameOutside(t, r) && r.lanes == t.lanes
  {
    hide FairQueues.Pop;
  }

  lemma {:induction false} PathOutside(t: State, id: PathId, remoteId: PathId, now: Time)
    ensures SameOutside(t, Path(t, id, remoteId, now)) && SameOutside(t, Disable(t, id))
  {
  }

  lemma {:induction false} SilentFrame(t: State, op: Op)
    requires Enabled(t, op) && Silent(op)
    ensures SameOutside(t, Step(t, op)) && Out(t, op) == Quiet && !Arrives(t, op)
    ensures op.EnqueueOp? || op.ForgetOp? || op.ExpireOp? || op.DropOp? ==> Step(t, op).lanes == t.lanes
  {
    hide TimeOut, Enqueue, Path, Disable, PopQueue, Without, HeadOf;
    match op {
      case EnqueueOp(payload, flow, ack, age, now) => EnqueueOutside(t, payload, flow, ack, age, now);
      case DropOp(c, now) => PopOutside(t, c);
      case PathOp(id, remoteId, now) => PathOutside(t, id, remoteId, now);
      case DisableOp(id) => PathOutside(t, id, 0, 0);
      case _ =>
    }
  }

  lemma {:induction false} SilentLanes(net: Net, t: State, op: Op)
    requires Enabled(t, op) && Silent(op) && SenderOk(net, t.lanes, t.epoch, t.remote, t.packets)
    ensures SenderOk(net, Step(t, op).lanes, t.epoch, t.remote, t.packets)
  {
    hide SenderOk, Enqueue, PopQueue, Without;
    match op {
      case PathOp(id, remoteId, now) =>
        var i := Find(t.lanes, id);
        if i < |t.lanes| {
          PartLanes(net, t.lanes, t.lanes[i := t.lanes[i].(lease := now)], t.epoch, t.remote, t.packets);
        } else {
          NewLaneOk(net, t.lanes, id, remoteId, now, t.epoch, t.remote, t.packets);
        }
      case DisableOp(id) =>
        var i := Find(t.lanes, id);
        if i < |t.lanes| {
          PartLanes(net, t.lanes, t.lanes[i := t.lanes[i].(lease := 0)], t.epoch, t.remote, t.packets);
        }
      case TimeOutOp(i, rto, now) =>
        PartLanes(net, t.lanes, t.lanes[i := TimeOut(t.lanes[i], rto, now)], t.epoch, t.remote, t.packets);
      case _ => SilentFrame(t, op);
    }
  }

  lemma {:induction false} SilentKeeps(net: Net, e: Epoch, op: Op)
    requires NetOk(net) && NetEnabled(net, e, op) && Silent(op)
    ensures NodeOk(NetStep(net, e, op), Step(net.nodes[e], op))
  {
    hide Inv, Step, Out, Enabled, SenderOk, ReceiversSideOk, DeliveryOk, AckedOk, HeldOk, Extends, Arrives;
    var t, net' := net.nodes[e], NetStep(net, e, op);
    assert NodeOk(net, t);
    StepExtends(net, e, op);
    StepKeeps(t, op);
    SilentFrame(t, op);
    SilentLanes(net, t, op);
    SenderGrows(net, net', e, Step(t, op).lanes, t.epoch, t.remote, t.packets);
    ReceiversGrow(net, net', e, t.receivers, t.remote, t.epoch);
    DeliveryGrows(net, net', e, t);
  }

  // ----- sending data -----

  /** p' is p after one more frame with the given content. */
  ghost predicate Began(p: Lane, p': Lane, d: Data) {
    && p'.id == p.id && p'.remoteId == p.remoteId && p'.counter == p.counter + 1 && SameFeedback(p, p')
    && p'.sent == p.sent + WireBytes(d.payload)
    && p.counter + 1 in p'.attempts
    && p'.attempts == p.attempts[p.counter + 1 := p'.attempts[p.counter + 1]]
    && var a := p'.attempts[p.counter + 1];
       a.bytes == WireBytes(d.payload) && a.through == p'.sent && (a.carried.Datagram? ==> a.carried.number == d.number)
  }

  lemma {:induction false} BeganOk(p: Lane, p': Lane, log: seq<Data>, d: Data)
    requires SentOk(p, log) && Began(p, p', d)
    ensures SentOk(p', log + [d])
  {
    var log' := log + [d];
    TotalSame(log, log', |log|);
    assert Base(p', log') == Base(p, log);
    forall s | s in p'.attempts ensures AttemptOk(p'.attempts[s], s, log', Base(p', log')) {
      if s != p.counter + 1 {
        assert AttemptOk(p.attempts[s], s, log, Base(p, log));
        TotalSame(log, log', s);
      }
    }
    if p.receivedThrough > 0 { TotalSame(log, log', p.receivedHigh); }
  }

  /** The datagrams numbered so far keep their content. */
  ghost predicate Kept(packets: map<nat, Packet>, packets': map<nat, Packet>) {
    forall n :: n in packets ==>
      n in packets' && packets'[n].order == packets[n].order && packets'[n].payload == packets[n].payload
  }

  lemma {:induction false} ContentKept(log: seq<Data>, packets: map<nat, Packet>, packets': map<nat, Packet>)
    requires ContentOk(log, packets) && Kept(packets, packets')
    ensures ContentOk(log, packets')
  {
  }

  /** A frame added to the log of lane i. */
  lemma {:induction false} SenderSends(
    net: Net, net': Net, e: Epoch, lanes: seq<Lane>, lanes': seq<Lane>, i: nat, d: Data, src: Epoch, dst: Epoch,
    packets: map<nat, Packet>, packets': map<nat, Packet>)
    requires Extends(net, net', e) && SenderOk(net, lanes, src, dst, packets) && LanesOk(lanes) && i < |lanes|
    requires |lanes'| == |lanes| && lanes' == lanes[i := lanes'[i]] && Began(lanes[i], lanes'[i], d)
      && Kept(packets, packets')
    requires DataLog(net', Channel(src, dst, lanes[i].id)) == DataLog(net, Channel(src, dst, lanes[i].id)) + [d]
    requires forall id :: id != lanes[i].id ==>
      DataLog(net', Channel(src, dst, id)) == DataLog(net, Channel(src, dst, id))
    requires d.number != 0 ==>
      d.number in packets' && d.order == packets'[d.number].order && d.payload == packets'[d.number].payload
    ensures SenderOk(net', lanes', src, dst, packets')
  {
    hide SentOk, FedOk, Began, SameFeedback, DataLog, AckLog, Extends;
    BeganId(lanes[i], lanes'[i], d);
    forall j | 0 <= j < |lanes| ensures SenderLaneOk(net', lanes'[j], src, dst, packets') {
      var c := Channel(src, dst, lanes[j].id);
      AckPrefix(net, net', e, Channel(dst, src, lanes[j].id));
      assert SenderLaneOk(net, lanes[j], src, dst, packets);
      FedOkGrows(lanes[j], AckLog(net, Channel(dst, src, lanes[j].id)), AckLog(net', Channel(dst, src, lanes[j].id)));
      ContentKept(DataLog(net, c), packets, packets');
      if j == i {
        BeganOk(lanes[i], lanes'[i], DataLog(net, c), d);
        BeganFed(lanes[i], lanes'[i], d, AckLog(net', Channel(dst, src, lanes[j].id)));
      }
    }
    SameIds(lanes, lanes');
    assert Find(lanes, lanes[i].id) < |lanes|;
  }

  lemma {:induction false} AckPrefix(net: Net, net': Net, e: Epoch, c: Channel)
    requires Extends(net, net', e)
    ensures AckLog(net, c) <= AckLog(net', c)
  {
  }

  lemma {:induction false} BeganId(p: Lane, p': Lane, d: Data)
    requires Began(p, p', d)
    ensures p'.id == p.id
  {
  }

  lemma {:induction false} BeganFed(p: Lane, p': Lane, d: Data, acks: seq<Ack>)
    requires Began(p, p', d) && FedOk(p, acks)
    ensures FedOk(p', acks)
  {
  }

  /** The lane a step sends on. */
  function LaneOf(op: Op): nat
    requires TransportRuns.Sends(op) || op.PingOp?
  {
    match op
    case MoveOp(_, i, _) => i
    case RepairOp(_, i, _, _) => i
    case CopyOp(_, i, _) => i
    case SendOp(_, i, _) => i
    case PingOp(i, _, _) => i
  }

  lemma {:induction false} TransmitBegan(t: State, n: nat, i: nat, now: Time)
    requires n in t.packets && n != 0 && i < |t.lanes|
    ensures var r, d := Transmit(t, n, i, now), TransmittedData(t, n, i);
      && Began(t.lanes[i], r.lanes[i], d) && r.lanes == t.lanes[i := r.lanes[i]]
      && n in r.packets && d.number == n && d.lane == t.lanes[i].id && d.attempt == t.lanes[i].counter + 1
      && d.order == r.packets[n].order && d.payload == r.packets[n].payload
      && r.packets == t.packets[n := r.packets[n]]
      && r.packets[n].order == t.packets[n].order && r.packets[n].payload == t.packets[n].payload
      && SameOutside(t.(packets := r.packets), r)
  {
  }

  /** r is t after it sent d on lane i. */
  ghost predicate Sent(t: State, r: State, i: nat, d: Data) {
    && i < |t.lanes| == |r.lanes| && r.lanes == t.lanes[i := r.lanes[i]]
    && Began(t.lanes[i], r.lanes[i], d) && Kept(t.packets, r.packets)
    && d.lane == t.lanes[i].id && d.attempt == t.lanes[i].counter + 1
    && (d.number != 0 ==>
       d.number in r.packets && d.order == r.packets[d.number].order && d.payload == r.packets[d.number].payload)
    && SameOutside(t.(packets := r.packets), r)
  }

  lemma {:induction false} TransmitSent(t: State, n: nat, i: nat, now: Time)
    requires n in t.packets && n != 0 && i < |t.lanes|
    ensures Sent(t, Transmit(t, n, i, now).(lastTime := now), i, TransmittedData(t, n, i))
  {
    hide Began, Transmit, TransmittedData;
    TransmitBegan(t, n, i, now);
  }

  lemma {:induction false} FirstSent(t: State, c: Class, i: nat, now: Time)
    requires QueuesValid(t) && HeadOf(t, c).Some? && t.counter + 1 !in t.packets && i < |t.lanes|
    ensures var u := Register(PopQueue(t, c), HeadOf(t, c).value, now);
      t.counter + 1 in u.packets
        && Sent(t, Transmit(u, t.counter + 1, i, now).(lastTime := now), i, TransmittedData(u, t.counter + 1, i))
  {
    hide Began, Transmit, TransmittedData, HeadOf, PopQueue, Register, FairQueues.Valid;
    PopOutside(t, c);
    TransportRuns.PopPackets(t, c);
    RegisterOutside(PopQueue(t, c), HeadOf(t, c).value, now);
    TransmitBegan(Register(PopQueue(t, c), HeadOf(t, c).value, now), t.counter + 1, i, now);
  }

  lemma {:induction false} SendEffect(t: State, op: Op)
    requires Inv(t) && Enabled(t, op) && (TransportRuns.Sends(op) || op.PingOp?)
    ensures Out(t, op).SentData? && !Arrives(t, op)
    ensures Sent(t, Step(t, op), LaneOf(op), Out(t, op).data)
  {
    hide Sent, Transmit, TransmittedData, HeadOf, PopQueue, Register, Inv;
    match op {
      case PingOp(i, _, now) => PingSent(t, i, now);
      case SendOp(c, i, now) => TransportRuns.KnownNumbers(t); TransportRuns.PopPackets(t, c); FirstSent(t, c, i, now);
      case MoveOp(n, i, now) => NoZero(t, n); TransmitSent(t, n, i, now);
      case RepairOp(n, i, _, now) => NoZero(t, n); TransmitSent(t, n, i, now);
      case CopyOp(n, i, now) => NoZero(t, n); TransmitSent(t, n, i, now);
    }
  }

  lemma {:induction false} NoZero(t: State, n: nat)
    requires Inv(t) && n in t.packets
    ensures n != 0
  {
  }

  lemma {:induction false} PingSent(t: State, i: nat, now: Time)
    requires i < |t.lanes|
    ensures Sent(t, t.(lanes := t.lanes[i := BeginAttempt(t.lanes[i], Ping, WIRE_OVERHEAD, now)], lastTime := now),
      i, PingData(t, i))
  {
    hide Began;
    PingBegan(t, i, now);
  }

  lemma {:induction false} PingBegan(t: State, i: nat, now: Time)
    requires i < |t.lanes|
    ensures Began(t.lanes[i], BeginAttempt(t.lanes[i], Ping, WIRE_OVERHEAD, now), PingData(t, i))
  {
  }

  lemma {:induction false} RegisterOutside(t: State, p: Packet, now: Time)
    requires t.counter + 1 !in t.packets
    ensures var r := Register(t, p, now);
      && SameOutside(t.(packets := r.packets), r) && r.lanes == t.lanes
      && t.counter + 1 in r.packets && r.packets == t.packets[t.counter + 1 := r.packets[t.counter + 1]]
  {
  }

  lemma {:induction false} SendKeepsNode(net: Net, e: Epoch, op: Op)
    requires NetOk(net) && NetEnabled(net, e, op) && (TransportRuns.Sends(op) || op.PingOp?)
    ensures NodeOk(NetStep(net, e, op), Step(net.nodes[e], op))
  {
    hide Inv, Step, Out, Enabled, SenderOk, ReceiversSideOk, DeliveryOk, AckedOk, HeldOk, Extends, Arrives, Began, Kept;
    hide DataLog, AckLog, Arrived, DeliveredLog;
    var t, net' := net.nodes[e], NetStep(net, e, op);
    assert NodeOk(net, t);
    StepExtends(net, e, op);
    StepKeeps(t, op);
    SendEffect(t, op);
    OutAddress(t, op);
    var r, i, d := Step(t, op), LaneOf(op), Out(t, op).data;
    forall id ensures DataLog(net', Channel(e, t.remote, id)) ==
      DataLog(net, Channel(e, t.remote, id)) + if id == t.lanes[i].id then [d] else []
    {
      StepLogs(net, e, op, Channel(e, t.remote, id));
    }
    LanesOfInv(t);
    SenderSends(net, net', e, t.lanes, r.lanes, i, d, e, t.remote, t.packets, r.packets);
    forall k ensures Arrived(net', Channel(t.remote, e, k)) == Arrived(net, Channel(t.remote, e, k))
                  && AckLog(net', Channel(e, t.remote, k)) == AckLog(net, Channel(e, t.remote, k))
    {
      StepLogs(net, e, op, Channel(t.remote, e, k));
      StepLogs(net, e, op, Channel(e, t.remote, k));
    }
    ReceiversGrow(net, net', e, t.receivers, t.remote, t.epoch);
    StepDelivered(net, e, op, t.remote, e);
    DeliveryGrows(net, net', e, t);
  }

  lemma {:induction false} LanesOfInv(t: State)
    requires Inv(t)
    ensures LanesOk(t.lanes)
  {
  }
}
