/** When equal byte totals prove that a prefix of a lane arrived: only on lanes that had sent nothing before. */
module UsedLanes {
  import opened Packets
  import opened TransportState
  import opened TransportSteps
  import opened TransportLaws
  import Runs = TransportRuns
  import opened AckLaws
  import opened Network
  import opened NetworkLaws
  import opened NetworkSteps
  import opened NetworkReceive
  import opened NetworkTheorems

  // ----- the byte-total proof -----

  /** The lane as an accepted acknowledgement leaves its feedback. */
  function FedBy(l: Lane, f: Ack): Lane {
    Fed(Recorded(l, f.revision), f.body, f.revision > l.ackRevision)
  }

  /**
   * When byte totals prove a prefix. A lane's count of bytes sent is not reset with its remote, so the
   * proof fires only on a lane that has sent nothing before it adopted this one; there, it fires for every
   * newest acknowledgement that reports the whole prefix and matches a transmission the lane remembers. On
   * a lane that was used before, it never fires.
   */
  lemma {:induction false} TotalsProveIff(events: seq<Event>, e: Epoch, i: nat, f: Ack, now: Time)
    requires NetworkTheorems.Runs(EMPTY_NET, events) && e in End(EMPTY_NET, events).nodes
    requires i < |End(EMPTY_NET, events).nodes[e].lanes| && AckWasSent(End(EMPTY_NET, events), f)
    requires var t := End(EMPTY_NET, events).nodes[e];
      AckRefusal(t, f.lane, f, now).None? && Find(t.lanes, f.lane) == i && f.revision > t.lanes[i].ackRevision
    ensures var net := End(EMPTY_NET, events); var t := net.nodes[e];
      var l, log := t.lanes[i], DataLog(net, Channel(e, t.remote, f.lane));
      && l.sent >= Total(log, |log|) && f.body.high <= |log|
      && (Proves(FedBy(l, f), f.body) ==> l.sent == Total(log, |log|))
      && (f.body.bytes == Total(log, f.body.high) && FedBy(l, f).receivedThrough > 0 ==>
            (Proves(FedBy(l, f), f.body) <==> l.sent == Total(log, |log|)))
  {
    hide NetworkTheorems.Runs, End;
    EmptyOk();
    RunsKeep(EMPTY_NET, events);
    TotalsNow(End(EMPTY_NET, events), e, i, f, now);
  }

  lemma {:induction false} TotalsNow(net: Net, e: Epoch, i: nat, f: Ack, now: Time)
    requires NetOk(net) && e in net.nodes && i < |net.nodes[e].lanes| && AckWasSent(net, f)
    requires var t := net.nodes[e];
      AckRefusal(t, f.lane, f, now).None? && Find(t.lanes, f.lane) == i && f.revision > t.lanes[i].ackRevision
    ensures var t := net.nodes[e]; var l, log := t.lanes[i], DataLog(net, Channel(e, t.remote, f.lane));
      && l.sent >= Total(log, |log|) && f.body.high <= |log|
      && (Proves(FedBy(l, f), f.body) ==> l.sent == Total(log, |log|))
      && (f.body.bytes == Total(log, f.body.high) && FedBy(l, f).receivedThrough > 0 ==>
            (Proves(FedBy(l, f), f.body) <==> l.sent == Total(log, |log|)))
  {
    hide ContentOk, ReceiversSideOk, DeliveryOk, HeldOk, TellsTruth, Inv, AckedOk, DataLog, Arrived, AckLog, Fed,
         SentOk, FedOk, AckOk;
    var t := net.nodes[e];
    assert NodeOk(net, t) && t.epoch == e;
    var c, l := Channel(t.remote, e, f.lane), t.lanes[i];
    var acks, log, x := AckLog(net, c), DataLog(net, Back(c)), Arrived(net, Back(c));
    assert AckLogOk(net, c) && SenderLaneOk(net, l, e, t.remote, t.packets);
    forall j, k | 0 <= j <= k < |acks| ensures Later(acks[j], acks[k]) { LaterAck(net, c, j, k); }
    AckHigh(f, f.revision - 1, c, log, x);
    TotalsOfLane(l, log, x, acks, c, f);
  }

  lemma {:induction false} TotalsOfLane(l: Lane, log: seq<Data>, x: set<nat>, acks: seq<Ack>, c: Channel, f: Ack)
    requires SentOk(l, log) && FedOk(l, acks) && f.revision > l.ackRevision && l.ackReceipts.Accepts(f.revision)
    requires 1 <= f.revision <= |acks| && acks[f.revision - 1] == f && f.body.high <= |log|
    requires AckOk(f, f.revision - 1, c, log, x)
    requires forall i, j :: 0 <= i <= j < |acks| ==> Later(acks[i], acks[j])
    ensures l.sent >= Total(log, |log|)
    ensures Proves(FedBy(l, f), f.body) ==> l.sent == Total(log, |log|)
    ensures f.body.bytes == Total(log, f.body.high) && FedBy(l, f).receivedThrough > 0 ==>
      (Proves(FedBy(l, f), f.body) <==> l.sent == Total(log, |log|))
  {
    hide AttemptOk, Fed, Later;
    var fed := FedBy(l, f);
    FedAfter(l, fed, acks, f);
    FedPart(l, f);
    SentAfter(l, fed, log, f);
    BytesBound(log, x, f.body.high);
  }

  lemma {:induction false} FedPart(l: Lane, f: Ack)
    ensures Part(l, FedBy(l, f))
  {
  }

  // ----- lanes used before -----

  /** The bytes a lane has sent in all. */
  function LaneBytes(lanes: seq<Lane>, id: PathId): nat {
    var i := Find(lanes, id);
    if i < |lanes| then lanes[i].sent else 0
  }

  /** The lane sent bytes before it adopted its present remote. */
  ghost predicate Used(net: Net, e: Epoch, id: PathId) {
    && e in net.nodes
    && var log := DataLog(net, Channel(e, net.nodes[e].remote, id));
       LaneBytes(net.nodes[e].lanes, id) > Total(log, |log|)
  }

  lemma {:induction false} SameBytes(lanes: seq<Lane>, lanes': seq<Lane>, id: PathId)
    requires |lanes'| == |lanes|
      && forall i :: 0 <= i < |lanes| ==> lanes'[i].id == lanes[i].id && lanes'[i].sent == lanes[i].sent
    ensures LaneBytes(lanes', id) == LaneBytes(lanes, id)
  {
    SameIds(lanes, lanes');
  }

  lemma {:induction false} PathBytes(t: State, id: PathId, remoteId: PathId, now: Time, k: PathId)
    ensures LaneBytes(Path(t, id, remoteId, now).lanes, k) == LaneBytes(t.lanes, k)
      == LaneBytes(Disable(t, id).lanes, k)
  {
    var i := Find(t.lanes, id);
    if i < |t.lanes| {
      SameBytes(t.lanes, Path(t, id, remoteId, now).lanes, k);
      SameBytes(t.lanes, Disable(t, id).lanes, k);
    } else {
      var lanes' := t.lanes + [NewLane(id, remoteId, now)];
      var j := Find(t.lanes, k);
      assert forall m :: 0 <= m < |t.lanes| ==> lanes'[m] == t.lanes[m];
      assert j < |t.lanes| ==> lanes'[j].id == k;
    }
  }

  lemma {:induction false} TimedOutBytes(l: Lane, rto: nat, now: Time)
    ensures TimeOut(l, rto, now).id == l.id && TimeOut(l, rto, now).sent == l.sent
  {
  }

  /** A step that stays with its remote adds to a lane's bytes what it sends on it. */
  lemma {:induction false} StepBytes(t: State, op: Op, id: PathId)
    requires Inv(t) && Enabled(t, op) && Runs.Stays(t, op)
    ensures LaneBytes(Step(t, op).lanes, id) == LaneBytes(t.lanes, id) +
      if Out(t, op).SentData? && Out(t, op).data.lane == id then WireBytes(Out(t, op).data.payload) else 0
  {
    hide Inv, SetRemote, Path, Disable, Enqueue, ReceiveData, ReceiveAck, EmitAck, TimeOut, PopQueue, HeadOf, Transmit;
    hide Register, LaneBytes, AckRefusal, Oldest, AckDue, Without, TransmittedData;
    match op
    case SetRemoteOp(_, _) => Runs.RefusedRemote(t, op);
    case DataOp(path, d, now) => DataEffect(t, path, d, now);
    case AckOp(path, f, late, now) => AckBytes(t, path, f, late, now, id); AckQuiet(t, path, f, late, now);
    case EmitOp(lane, _, now) => EmitBytes(t, lane, now);
    case PingOp(_, _, _) => SendBytes(t, op, id);
    case MoveOp(_, _, _) => SendBytes(t, op, id);
    case RepairOp(_, _, _, _) => SendBytes(t, op, id);
    case CopyOp(_, _, _) => SendBytes(t, op, id);
    case SendOp(_, _, _) => SendBytes(t, op, id);
    case PathOp(path, remoteId, now) => PathBytes(t, path, remoteId, now, id);
    case DisableOp(path) => PathBytes(t, path, 0, 0, id);
    case TimeOutOp(i, rto, now) =>
      TimedOutBytes(t.lanes[i], rto, now);
      SameBytes(t.lanes, Step(t, op).lanes, id);
    case _ => SilentFrame(t, op);
  }

  lemma {:induction false} EmitBytes(t: State, lane: PathId, now: Time)
    requires lane in t.receivers
    ensures EmitAck(t, lane, now).lanes == t.lanes
  {
  }

  lemma {:induction false} AckBytes(t: State, path: PathId, f: Ack, late: set<nat>, now: Time, id: PathId)
    ensures LaneBytes(ReceiveAck(t, path, f, late, now).0.lanes, id) == LaneBytes(t.lanes, id)
  {
    hide ReceiveAck, AckRefusal, Claimed, Fed, LaneBytes;
    if AckRefusal(t, path, f, now).Some? {
      RefusedOutside(t, path, f, late, now);
    } else {
      AckEffect(t, path, f, late, now);
      SameBytes(t.lanes, ReceiveAck(t, path, f, late, now).0.lanes, id);
    }
  }

  lemma {:induction false} SendBytes(t: State, op: Op, id: PathId)
    requires Inv(t) && Enabled(t, op) && (Runs.Sends(op) || op.PingOp?)
    ensures Out(t, op).SentData?
    ensures LaneBytes(Step(t, op).lanes, id) == LaneBytes(t.lanes, id) +
      if Out(t, op).data.lane == id then WireBytes(Out(t, op).data.payload) else 0
  {
    hide Step, Out, Enabled, Kept;
    SendEffect(t, op);
    LanesOfInv(t);
    SameIds(t.lanes, Step(t, op).lanes);
    OneLane(t.lanes, LaneOf(op), id);
  }

  lemma {:induction false} OneLane(lanes: seq<Lane>, i: nat, id: PathId)
    requires i < |lanes| && forall a, b :: 0 <= a < b < |lanes| ==> lanes[a].id != lanes[b].id
    ensures lanes[i].id == id <==> Find(lanes, id) == i
  {
  }

  /** A lane used before stays used before, through every step and every later adoption. */
  lemma {:induction false} StepUsed(net: Net, f: Epoch, op: Op, e: Epoch, id: PathId)
    requires NetOk(net) && NetEnabled(net, f, op) && Used(net, e, id)
    ensures Used(NetStep(net, f, op), e, id)
  {
    hide NetOk, Step, Out, Enabled, Arrives, LaneBytes, DataLog, Runs.Stays, NetStep;
    var net', t := NetStep(net, f, op), net.nodes[f];
    NodeHeld(net, f);
    StepExtends(net, f, op);
    NodeAfter(net, f, op);
    if f == e {
      if Runs.Stays(t, op) {
        StaysWithRemote(t, op);
        StepBytes(t, op, id);
        OutAddress(t, op);
        StepLogs(net, e, op, Channel(e, t.remote, id));
        SentTotal(DataLog(net, Channel(e, t.remote, id)), Out(t, op), Channel(e, t.remote, id));
      } else {
        AdoptedUsed(net, e, op, id);
      }
    }
  }

  lemma {:induction false} NodeAfter(net: Net, f: Epoch, op: Op)
    requires NetEnabled(net, f, op)
    ensures f in NetStep(net, f, op).nodes && NetStep(net, f, op).nodes[f] == Step(net.nodes[f], op)
  {
    hide Step, Out, Arrives, Enabled;
  }

  lemma {:induction false} StaysWithRemote(t: State, op: Op)
    requires Inv(t) && Enabled(t, op) && Runs.Stays(t, op)
    ensures Step(t, op).remote == t.remote
  {
    hide Inv, Enqueue, ReceiveData, ReceiveAck, EmitAck, TimeOut, Path, Disable, PopQueue, HeadOf, Transmit, Register,
         Without;
    match op {
      case AckOp(path, f, late, now) =>
        if AckRefusal(t, path, f, now).None? {
          AckEffect(t, path, f, late, now);
        } else {
          RefusedOutside(t, path, f, late, now);
        }
      case DataOp(path, d, now) => DataEffect(t, path, d, now);
      case EmitOp(lane, interval, now) => EmitRemote(t, lane, now);
      case PingOp(_, _, _) =>
      case SetRemoteOp(_, _) => Runs.RefusedRemote(t, op);
      case MoveOp(_, _, _) => SendEffect(t, op);
      case RepairOp(_, _, _, _) => SendEffect(t, op);
      case SendOp(_, _, _) => SendEffect(t, op);
      case CopyOp(_, _, _) => SendEffect(t, op);
      case _ => SilentFrame(t, op);
    }
  }

  lemma {:induction false} EmitRemote(t: State, lane: PathId, now: Time)
    requires lane in t.receivers
    ensures EmitAck(t, lane, now).remote == t.remote
  {
  }

  lemma {:induction false} SentTotal(log: seq<Data>, out: Output, c: Channel)
    ensures var log' := log + SentOn(out, c);
      Total(log', |log'|) == Total(log, |log|) +
        if out.SentData? && Channel(out.data.src, out.data.dst, out.data.lane) == c
        then WireBytes(out.data.payload) else 0
  {
    TotalSame(log, log + SentOn(out, c), |log|);
  }

  /** Adoption keeps the bytes a lane has sent, and has sent none to the new remote. */
  lemma {:induction false} AdoptedUsed(net: Net, e: Epoch, op: Op, id: PathId)
    requires NetOk(net) && NetEnabled(net, e, op) && !Runs.Stays(net.nodes[e], op)
      && LaneBytes(net.nodes[e].lanes, id) > 0
    ensures Used(NetStep(net, e, op), e, id)
  {
    hide NodeOk, AckLogOk, ChannelOk, PairOk, AcceptsRemote, LaneBytes, DataLog, AckLog, Arrived, DeliveredLog, Proven,
         HeldOk;
    var t := net.nodes[e];
    HeldOfNode(net, e);
    AcceptedIsNew(t, op.epoch, op.adopted);
    UntouchedPair(net, e, op.epoch);
    assert Untouched(net, e, op.epoch, id);
    SetRemoteEffect(t, op.epoch, op.adopted);
    SameBytes(t.lanes, ResetLanes(t.lanes), id);
    StepLogs(net, e, op, Channel(e, op.epoch, id));
    NodeAfter(net, e, op);
  }

  lemma {:induction false} HeldOfNode(net: Net, e: Epoch)
    requires NetOk(net) && e in net.nodes
    ensures HeldOk(net.nodes[e].remote, net.nodes[e].held)
  {
    hide Inv, SenderOk, ReceiversSideOk, DeliveryOk, AckedOk, HeldOk;
    assert NodeOk(net, net.nodes[e]);
  }

  lemma {:induction false} UsedForever(net: Net, events: seq<Event>, e: Epoch, id: PathId)
    requires NetOk(net) && NetworkTheorems.Runs(net, events) && Used(net, e, id)
    ensures Used(End(net, events), e, id)
    decreases |events|
  {
    hide NetOk, NetStep, NetEnabled, Used;
    if events != [] {
      match events[0] {
        case Start(f) => StartKeeps(net, f); StartUsed(net, f, e, id);
        case At(f, op) => NetStepKeeps(net, f, op); StepUsed(net, f, op, e, id);
      }
      UsedForever(Next(net, events[0]), events[1..], e, id);
    }
  }

  lemma {:induction false} StartUsed(net: Net, f: Epoch, e: Epoch, id: PathId)
    requires Used(net, e, id) && f !in net.nodes
    ensures Used(AddNode(net, f), e, id)
  {
    hide DataLog, LaneBytes;
    SameLogs(net, f, Channel(e, net.nodes[e].remote, id));
  }

  /**
   * A lane that has sent anything when its transport changes its remote never proves a prefix by byte totals
   * again, in any continuation of any run, whichever remotes are adopted later.
   */
  lemma {:induction false} ProofDeadAfterChange(
    before: seq<Event>, e: Epoch, op: Op, after: seq<Event>, f: Ack, now: Time)
    requires NetworkTheorems.Runs(EMPTY_NET, before) && NetEnabled(End(EMPTY_NET, before), e, op)
    requires !Runs.Stays(End(EMPTY_NET, before).nodes[e], op)
      && LaneBytes(End(EMPTY_NET, before).nodes[e].lanes, f.lane) > 0
    requires NetworkTheorems.Runs(NetStep(End(EMPTY_NET, before), e, op), after)
    requires var net := End(NetStep(End(EMPTY_NET, before), e, op), after);
      e in net.nodes && AckWasSent(net, f) && AckRefusal(net.nodes[e], f.lane, f, now).None?
      && f.revision > net.nodes[e].lanes[Find(net.nodes[e].lanes, f.lane)].ackRevision
    ensures var t := End(NetStep(End(EMPTY_NET, before), e, op), after).nodes[e];
      !Proves(FedBy(t.lanes[Find(t.lanes, f.lane)], f), f.body)
  {
    hide NetworkTheorems.Runs, End, NetOk, NetStep, NetEnabled, FedBy, Proves, Runs.Stays;
    EmptyOk();
    RunsKeep(EMPTY_NET, before);
    var mid := NetStep(End(EMPTY_NET, before), e, op);
    NetStepKeeps(End(EMPTY_NET, before), e, op);
    AdoptedUsed(End(EMPTY_NET, before), e, op, f.lane);
    RunsKeep(mid, after);
    UsedForever(mid, after, e, f.lane);
    var net := End(mid, after);
    TotalsNow(net, e, Find(net.nodes[e].lanes, f.lane), f, now);
  }
}
