/** The two-party theorems: soundness, at-most-once delivery, no forgotten receipt, completeness. */
module NetworkTheorems {
  import Basics
  import opened Packets
  import opened ReceiptWindows
  import opened TransportState
  import opened TransportSteps
  import opened TransportLaws
  import TransportRuns
  import opened Network
  import opened NetworkLaws
  import opened NetworkSteps
  import opened NetworkReceive

  // ----- sending an acknowledgement -----

  lemma {:induction false} LowWordMarks(w: Window, s: nat)
    requires s <= w.high && w.high - s in LowWord(w)
    ensures s in w.marks
  {
    assert MarkedBelow(w, w.high, w.high - s);
  }

  lemma {:induction false} BuiltAckOk(
    t: State, r: Receiver, now: Time, log: seq<Data>, x: set<nat>, acks: seq<Ack>, c: Channel)
    requires ReceiverLaneOk(r, log, x, acks) && c == Channel(t.epoch, t.remote, r.remoteLane)
    ensures AckOk(BuildAck(t, r, now), |acks|, c, log, x)
    ensures acks != [] ==> Later(acks[|acks| - 1], BuildAck(t, r, now))
  {
    var f := BuildAck(t, r, now);
    forall s | f.body.Reports(s) ensures s in x {
      LowWordMarks(r.receipts, s);
    }
  }

  /** The report reaches up to 255 numbers past the oldest unreported one, and no further than the highest. */
  lemma {:induction false} ReportRange(t: State)
    requires ReceiptsOk(t.received, t.unreported)
    ensures ReportTop(t) <= t.received.high
    ensures forall m :: m in t.unreported.marks ==> ReportTop(t) < m + ACK_RECEIPT_BITS
    ensures t.unreported.marks != {} ==>
      Oldest(t.unreported) in t.unreported.marks && Oldest(t.unreported) <= ReportTop(t)
  {
    assert t.unreported.IsOldest(Oldest(t.unreported));
  }

  /** Every number an acknowledgement takes off the unreported record is reported by that very acknowledgement. */
  lemma {:induction false} RemovedIsReported(t: State, r: Receiver, now: Time, n: nat)
    requires ReceiptsOk(t.received, t.unreported)
    requires n in t.unreported.marks && n !in t.unreported.Forget(ReportTop(t)).marks
    ensures BuildAck(t, r, now).body.Received(n)
  {
    ReportRange(t);
    var top := ReportTop(t);
    assert n in t.received.marks && n != 0 && n <= top;
    assert MarkedBelow(t.received, top, top - n);
  }

  /** An acknowledgement reports only numbers on record. */
  lemma {:induction false} ReportedIsReceived(t: State, r: Receiver, now: Time, n: nat)
    requires BuildAck(t, r, now).body.Received(n)
    ensures n in t.received.marks
  {
    var top := ReportTop(t);
    assert MarkedBelow(t.received, top, top - n);
  }

  /** Each acknowledgement sent while something is unreported makes the record of it strictly smaller. */
  lemma {:induction false} EachAckShrinksUnreported(t: State, lane: PathId, now: Time)
    requires Inv(t) && lane in t.receivers && t.unreported.marks != {}
    ensures EmitAck(t, lane, now).unreported.marks < t.unreported.marks
  {
    ReportRange(t);
    assert Oldest(t.unreported) !in EmitAck(t, lane, now).unreported.marks;
  }

  lemma {:induction false} BuiltTellsTruth(net: Net, t: State, r: Receiver, now: Time, c: Channel)
    requires DeliveryOk(net, t.received, t.unreported, t.remote, t.epoch) && ReceiptsOk(t.received, t.unreported)
    requires c.src == t.epoch && c.dst == t.remote
    ensures TellsTruth(net, BuildAck(t, r, now), c)
  {
    hide Reached, ReportedBack, ReceiptsOk, BuildAck, ReportTop;
    ReportRange(t);
    var f := BuildAck(t, r, now);
    forall n | f.body.Received(n) ensures Reached(net, c.dst, c.src, n) {
      ReportedIsReceived(t, r, now, n);
    }
    BuiltTop(t, r, now);
    if t.received.high != 0 { assert Reached(net, c.dst, c.src, t.received.high); }
  }

  lemma {:induction false} BuiltTop(t: State, r: Receiver, now: Time)
    ensures BuildAck(t, r, now).body.receivedHigh == ReportTop(t)
  {
  }

  lemma {:induction false} EmitDelivery(
    net: Net, net': Net, e: Epoch, t: State, r: Receiver, now: Time, c: Channel, i: nat)
    requires Extends(net, net', e) && DeliveryOk(net, t.received, t.unreported, t.remote, t.epoch)
    requires ReceiptsOk(t.received, t.unreported) && c.src == t.epoch && c.dst == t.remote
    requires i < |AckLog(net', c)| && AckLog(net', c)[i] == BuildAck(t, r, now)
    requires DeliveredLog(net', t.remote, t.epoch) == DeliveredLog(net, t.remote, t.epoch)
    ensures DeliveryOk(net', t.received, t.unreported.Forget(ReportTop(t)), t.remote, t.epoch)
  {
    hide Reached, ReceiptsOk, BuildAck, ReportTop, WindowOk, Extends;
    var kept := t.unreported.Forget(ReportTop(t));
    forall n | n in DeliveredLog(net, t.remote, t.epoch)
      ensures Reached(net', t.remote, t.epoch, n)
      ensures n in kept.marks || t.received.high - n >= MAX_PACKETS || ReportedBack(net', t.epoch, t.remote, n)
    {
      ReachedGrows(net, net', e, t.remote, t.epoch, n);
      if ReportedBack(net, t.epoch, t.remote, n) {
        ReportedBackGrows(net, net', e, t.epoch, t.remote, n);
      } else if n in t.unreported.marks && n !in kept.marks {
        RemovedIsReported(t, r, now, n);
        assert Tells(net', Channel(t.epoch, t.remote, c.lane), i, n);
      }
    }
  }

  lemma {:induction false} EmittedReceiver(
    r: Receiver, log: seq<Data>, x: set<nat>, acks: seq<Ack>, t: State, now: Time)
    requires ReceiverLaneOk(r, log, x, acks)
    ensures ReceiverLaneOk(r.(revision := r.revision + 1, pending := 0, ackAt := now), log, x,
      acks + [BuildAck(t, r, now)])
  {
  }

  lemma {:induction false} EmitOut(t: State, lane: PathId, interval: nat, now: Time)
    requires Inv(t) && Enabled(t, EmitOp(lane, interval, now))
    ensures lane in t.receivers && Out(t, EmitOp(lane, interval, now)) == SentAck(BuildAck(t, t.receivers[lane], now))
    ensures t.receivers[lane].remoteLane == lane && BuildAck(t, t.receivers[lane], now).lane == lane
    ensures Step(t, EmitOp(lane, interval, now)) == EmitAck(t, lane, now).(lastTime := now)
  {
    assert ReceiverOk(t.receivers[lane], lane, t.lastTime);
  }

  lemma {:induction false} EmitReceivers(net: Net, e: Epoch, lane: PathId, interval: nat, now: Time, k: PathId)
    requires NetOk(net) && NetEnabled(net, e, EmitOp(lane, interval, now))
    ensures var t, op := net.nodes[e], EmitOp(lane, interval, now);
      ReceiverSideOk(NetStep(net, e, op), Step(t, op).receivers, t.remote, e, k)
  {
    hide Inv, Enabled, SenderOk, ReceiverLaneOk, DeliveryOk, AckedOk, HeldOk, Extends, BuildAck, Step, Out;
    hide DataLog, AckLog, Arrived;
    var op := EmitOp(lane, interval, now);
    var t, net' := net.nodes[e], NetStep(net, e, op);
    assert NodeOk(net, t) && ReceiverSideOk(net, t.receivers, t.remote, e, k);
    StepExtends(net, e, op);
    EmitOut(t, lane, interval, now);
    OutAddress(t, op);
    NoArrival(t, op);
    StepLogs(net, e, op, Channel(t.remote, e, k));
    StepLogs(net, e, op, Channel(e, t.remote, k));
    assert Arrived(net, Channel(t.remote, e, k)) + {} == Arrived(net, Channel(t.remote, e, k));
    if k == lane {
      var c := Channel(t.remote, e, k);
      assert DataLog(net, c) + [] == DataLog(net, c);
      EmittedReceiver(t.receivers[k], DataLog(net, c), Arrived(net, c), AckLog(net, Back(c)), t, now);
    } else {
      assert AckLog(net, Channel(e, t.remote, k)) + [] == AckLog(net, Channel(e, t.remote, k));
      ReceiverGrows(net, net', e, t.receivers, t.remote, e, k);
    }
  }

  lemma {:induction false} EmitKeepsNode(net: Net, e: Epoch, lane: PathId, interval: nat, now: Time)
    requires NetOk(net) && NetEnabled(net, e, EmitOp(lane, interval, now))
    ensures NodeOk(NetStep(net, e, EmitOp(lane, interval, now)), Step(net.nodes[e], EmitOp(lane, interval, now)))
  {
    hide Inv, Enabled, SenderOk, ReceiverSideOk, DeliveryOk, AckedOk, HeldOk, Extends, BuildAck, Step, Out, Arrives,
         ReportTop;
    hide DataLog, AckLog, Arrived, DeliveredLog;
    var op := EmitOp(lane, interval, now);
    var t, net' := net.nodes[e], NetStep(net, e, op);
    assert NodeOk(net, t);
    StepExtends(net, e, op);
    StepKeeps(t, op);
    EmitOut(t, lane, interval, now);
    OutAddress(t, op);
    forall id ensures DataLog(net', Channel(e, t.remote, id)) == DataLog(net, Channel(e, t.remote, id)) {
      StepLogs(net, e, op, Channel(e, t.remote, id));
    }
    SenderGrows(net, net', e, t.lanes, e, t.remote, t.packets);
    forall k ensures ReceiverSideOk(net', Step(t, op).receivers, t.remote, e, k) {
      EmitReceivers(net, e, lane, interval, now, k);
    }
    StepDelivered(net, e, op, t.remote, e);
    var c := Channel(e, t.remote, lane);
    StepLogs(net, e, op, c);
    ReceiversOfInv(t);
    EmitDelivery(net, net', e, t, t.receivers[lane], now, c, |AckLog(net, c)|);
    AckedGrows(net, net', e, t);
  }

  // ----- a new remote -----

  /** An accepted epoch was never held before. */
  lemma {:induction false} AcceptedIsNew(t: State, epoch: Epoch, adopted: bool)
    requires HeldOk(t.remote, t.held) && AcceptsRemote(t, epoch, adopted) && (adopted ==> Proven(t, epoch))
    ensures epoch !in t.held && HeldOk(epoch, t.held + {epoch})
  {
  }

  lemma {:induction false} ResetSender(net: Net, lanes: seq<Lane>, e: Epoch, epoch: Epoch)
    requires forall id :: DataLog(net, Channel(e, epoch, id)) == []
    ensures SenderOk(net, ResetLanes(lanes), e, epoch, map[])
  {
    var lanes' := ResetLanes(lanes);
    forall i | 0 <= i < |lanes| ensures SenderLaneOk(net, lanes'[i], e, epoch, map[]) {
      assert DataLog(net, Channel(e, epoch, lanes[i].id)) == [];
    }
  }

  lemma {:induction false} SetRemoteEffect(t: State, epoch: Epoch, adopted: bool)
    requires AcceptsRemote(t, epoch, adopted)
    ensures var r := SetRemote(t, epoch, adopted);
      && r.epoch == t.epoch && r.remote == epoch && r.held == t.held + {epoch} && r.lanes == ResetLanes(t.lanes)
      && r.packets == map[] && r.acked == {} && r.receivers == map[] && r.received == EMPTY && r.unreported == EMPTY
  {
  }

  ghost predicate Untouched(net: Net, e: Epoch, epoch: Epoch, k: PathId) {
    && DataLog(net, Channel(e, epoch, k)) == [] && AckLog(net, Channel(e, epoch, k)) == []
    && Arrived(net, Channel(epoch, e, k)) == {}
  }

  /** Nothing has passed between e and an epoch it never held. */
  lemma {:induction false} UntouchedPair(net: Net, e: Epoch, epoch: Epoch)
    requires NetOk(net) && e in net.nodes && epoch !in net.nodes[e].held
    ensures forall k :: Untouched(net, e, epoch, k)
    ensures DeliveredLog(net, epoch, e) == []
  {
    hide NodeOk, AckLogOk, LogOk, DataLog, AckLog, Arrived, DeliveredLog;
    forall k ensures Untouched(net, e, epoch, k) {
      assert ChannelOk(net, Channel(e, epoch, k)) && ChannelOk(net, Channel(epoch, e, k));
    }
    assert PairOk(net, epoch, e);
  }

  lemma {:induction false} FreshPair(net: Net, t: State, epoch: Epoch)
    requires forall k :: Untouched(net, t.epoch, epoch, k)
    requires DeliveredLog(net, epoch, t.epoch) == []
    ensures SenderOk(net, ResetLanes(t.lanes), t.epoch, epoch, map[])
    ensures ReceiversSideOk(net, map[], epoch, t.epoch) && DeliveryOk(net, EMPTY, EMPTY, epoch, t.epoch)
    ensures AckedOk(net, {}, t.epoch, epoch)
  {
    hide DataLog, AckLog, Arrived, DeliveredLog, SenderOk;
    forall k ensures DataLog(net, Channel(t.epoch, epoch, k)) == [] && ReceiverSideOk(net, map[], epoch, t.epoch, k) {
      assert Untouched(net, t.epoch, epoch, k);
    }
    ResetSender(net, t.lanes, t.epoch, epoch);
  }

  lemma {:induction false} SetRemoteKeepsNode(net: Net, e: Epoch, epoch: Epoch, adopted: bool)
    requires NetOk(net) && NetEnabled(net, e, SetRemoteOp(epoch, adopted))
    ensures NodeOk(NetStep(net, e, SetRemoteOp(epoch, adopted)), Step(net.nodes[e], SetRemoteOp(epoch, adopted)))
  {
    hide Inv, Enabled, SenderOk, ReceiversSideOk, DeliveryOk, AckedOk, HeldOk, SetRemote, AcceptsRemote, Proven,
         AckLogOk, ChannelOk, PairOk;
    var op := SetRemoteOp(epoch, adopted);
    var t, net' := net.nodes[e], NetStep(net, e, op);
    assert NodeOk(net, t);
    StepKeeps(t, op);
    if AcceptsRemote(t, epoch, adopted) {
      SetRemoteEffect(t, epoch, adopted);
      AcceptedIsNew(t, epoch, adopted);
      UntouchedPair(net, e, epoch);
      forall k ensures Untouched(net', e, epoch, k) { assert Untouched(net, e, epoch, k); }
      FreshPair(net', t, epoch);
    } else {
      TransportRuns.RefusedRemote(t, op);
      StepExtends(net, e, op);
      SenderGrows(net, net', e, t.lanes, e, t.remote, t.packets);
      ReceiversGrow(net, net', e, t.receivers, t.remote, e);
      DeliveryGrows(net, net', e, t);
    }
  }

  // ----- the whole network -----

  lemma {:induction false} NodeKeeps(net: Net, e: Epoch, op: Op)
    requires NetOk(net) && NetEnabled(net, e, op)
    ensures NodeOk(NetStep(net, e, op), Step(net.nodes[e], op))
  {
    hide NetOk, NetEnabled, NodeOk, Step;
    match op
    case SetRemoteOp(epoch, adopted) => SetRemoteKeepsNode(net, e, epoch, adopted);
    case DataOp(path, data, now) => DataKeepsNode(net, e, path, data, now);
    case AckOp(path, f, late, now) => AckKeepsNode(net, e, path, f, late, now);
    case EmitOp(lane, interval, now) => EmitKeepsNode(net, e, lane, interval, now);
    case PingOp(_, _, _) => SendKeepsNode(net, e, op);
    case MoveOp(_, _, _) => SendKeepsNode(net, e, op);
    case RepairOp(_, _, _, _) => SendKeepsNode(net, e, op);
    case SendOp(_, _, _) => SendKeepsNode(net, e, op);
    case CopyOp(_, _, _) => SendKeepsNode(net, e, op);
    case _ => SilentKeeps(net, e, op);
  }

  lemma {:induction false} HeldGrows(t: State, op: Op)
    requires Inv(t) && Enabled(t, op)
    ensures t.held <= Step(t, op).held && Step(t, op).epoch == t.epoch
  {
    hide Inv, Enqueue, ReceiveData, ReceiveAck, EmitAck, TimeOut, Path, Disable, PopQueue, HeadOf, Transmit, Register,
         Without;
    match op {
      case AckOp(path, f, late, now) =>
        if AckRefusal(t, path, f, now).None? {
          AckEffect(t, path, f, late, now);
        } else {
          RefusedOutside(t, path, f, late, now);
        }
      case DataOp(path, d, now) => DataEffect(t, path, d, now);
      case EmitOp(lane, interval, now) => EmitHeld(t, lane, now);
      case PingOp(_, _, _) =>
      case SetRemoteOp(_, _) =>
      case MoveOp(_, _, _) => SendEffect(t, op);
      case RepairOp(_, _, _, _) => SendEffect(t, op);
      case SendOp(_, _, _) => SendEffect(t, op);
      case CopyOp(_, _, _) => SendEffect(t, op);
      case _ => SilentFrame(t, op);
    }
  }

  lemma {:induction false} EmitHeld(t: State, lane: PathId, now: Time)
    requires lane in t.receivers
    ensures EmitAck(t, lane, now).held == t.held && EmitAck(t, lane, now).epoch == t.epoch
  {
  }

  lemma {:induction false} ChannelKeeps(net: Net, e: Epoch, op: Op, c: Channel)
    requires NetOk(net) && NetEnabled(net, e, op)
    ensures ChannelOk(NetStep(net, e, op), c)
  {
    hide Step, Out, Arrives, Enabled, NodeOk, AckLogOk, DataLog, AckLog, Arrived, LogOk;
    var t, net' := net.nodes[e], NetStep(net, e, op);
    assert ChannelOk(net, c);
    NodeHeld(net, e);
    StepLogs(net, e, op, c);
    OutAddress(t, op);
    HeldGrows(t, op);
    LogKeeps(net, e, op, c);
  }

  lemma {:induction false} LogKeeps(net: Net, e: Epoch, op: Op, c: Channel)
    requires NetOk(net) && NetEnabled(net, e, op)
    ensures LogOk(DataLog(NetStep(net, e, op), c), c)
  {
    hide Step, Out, Arrives, Enabled, NodeOk, AckLogOk, DataLog;
    assert ChannelOk(net, c);
    StepLogs(net, e, op, c);
    if SentOn(Out(net.nodes[e], op), c) != [] {
      NextNumber(net, e, op);
    } else {
      assert DataLog(net, c) + [] == DataLog(net, c);
    }
  }

  lemma {:induction false} NodeHeld(net: Net, e: Epoch)
    requires NetOk(net) && e in net.nodes
    ensures net.nodes[e].remote in net.nodes[e].held && Inv(net.nodes[e]) && net.nodes[e].epoch == e
  {
    assert NodeOk(net, net.nodes[e]);
  }

  /** A data frame takes the next number of its channel. */
  lemma {:induction false} NextNumber(net: Net, e: Epoch, op: Op)
    requires NetOk(net) && NetEnabled(net, e, op) && Out(net.nodes[e], op).SentData?
    ensures var d := Out(net.nodes[e], op).data;
      d.attempt == |DataLog(net, Channel(d.src, d.dst, d.lane))| + 1
  {
    hide Enabled, Step, SentOk, FedOk, ContentOk, Inv, Sent, DeliveryOk, ReceiversSideOk;
    var t := net.nodes[e];
    assert NodeOk(net, t);
    OnlySenders(t, op);
    SendEffect(t, op);
    OutAddress(t, op);
    SentNumber(t, Step(t, op), LaneOf(op), Out(t, op).data);
    var i := LaneOf(op);
    assert SenderLaneOk(net, t.lanes[i], e, t.remote, t.packets);
    LogLength(t.lanes[i], DataLog(net, Channel(e, t.remote, t.lanes[i].id)));
  }

  lemma {:induction false} LogLength(p: Lane, log: seq<Data>)
    requires SentOk(p, log)
    ensures |log| == p.counter
  {
  }

  lemma {:induction false} SentNumber(t: State, r: State, i: nat, d: Data)
    requires Sent(t, r, i, d)
    ensures i < |t.lanes| && d.lane == t.lanes[i].id && d.attempt == t.lanes[i].counter + 1
  {
  }

  lemma {:induction false} OnlySenders(t: State, op: Op)
    requires Enabled(t, op) && Out(t, op).SentData?
    ensures TransportRuns.Sends(op) || op.PingOp?
  {
    hide ReceiveAck, ReceiveData;
    match op {
      case AckOp(path, f, late, now) => AckQuiet(t, path, f, late, now);
      case DataOp(path, d, now) => DataEffect(t, path, d, now);
      case _ =>
    }
  }

  lemma {:induction false} OnlyEmits(t: State, op: Op)
    requires Enabled(t, op) && Out(t, op).SentAck?
    ensures op.EmitOp?
  {
    hide ReceiveAck, ReceiveData;
    match op {
      case AckOp(path, f, late, now) => AckQuiet(t, path, f, late, now);
      case DataOp(path, d, now) => DataEffect(t, path, d, now);
      case _ =>
    }
  }

  lemma {:induction false} AckLogKeeps(net: Net, e: Epoch, op: Op, c: Channel)
    requires NetOk(net) && NetEnabled(net, e, op)
    ensures AckLogOk(NetStep(net, e, op), c)
  {
    hide Step, Out, Arrives, Enabled, NodeOk, AckLogOk, DataLog, AckLog, Arrived, Extends;
    var t, net' := net.nodes[e], NetStep(net, e, op);
    assert AckLogOk(net, c);
    NodeHeld(net, e);
    StepExtends(net, e, op);
    StepLogs(net, e, op, c);
    if AckedOn(Out(t, op), c) == [] {
      assert AckLog(net, c) + [] == AckLog(net, c);
      AckLogGrows(net, net', e, c);
    } else {
      OnlyEmits(t, op);
      AckLogAppends(net, e, op.lane, op.interval, op.now, c);
    }
  }

  lemma {:induction false} AckLogAppends(net: Net, e: Epoch, lane: PathId, interval: nat, now: Time, c: Channel)
    requires NetOk(net) && NetEnabled(net, e, EmitOp(lane, interval, now))
    requires AckedOn(Out(net.nodes[e], EmitOp(lane, interval, now)), c) != []
    ensures AckLogOk(NetStep(net, e, EmitOp(lane, interval, now)), c)
  {
    hide Step, Out, Enabled, DataLog, AckLog, Arrived, Extends, AckOk, TellsTruth, Later, BuildAck, ReceiverLaneOk,
         SenderOk, DeliveryOk, Inv, NetStep;
    var op := EmitOp(lane, interval, now);
    var t, net' := net.nodes[e], NetStep(net, e, op);
    assert NodeOk(net, t) && AckLogOk(net, c) && ReceiverSideOk(net, t.receivers, t.remote, e, lane);
    EmitOut(t, lane, interval, now);
    OutAddress(t, op);
    StepExtends(net, e, op);
    StepLogs(net, e, op, c);
    StepLogs(net, e, op, Back(c));
    NoArrival(t, op);
    var r, f, acks := t.receivers[lane], BuildAck(t, t.receivers[lane], now), AckLog(net, c);
    assert c == Channel(e, t.remote, lane) && AckLog(net', c) == acks + [f];
    assert DataLog(net, Back(c)) + [] == DataLog(net, Back(c));
    assert Arrived(net, Back(c)) + {} == Arrived(net, Back(c));
    BuiltAckOk(t, r, now, DataLog(net, Back(c)), Arrived(net, Back(c)), acks, c);
    ReceiversOfInv(t);
    BuiltTellsTruth(net, t, r, now, c);
    TellsTruthGrows(net, net', e, f, c);
    forall i | 0 <= i < |acks|
      ensures AckOk(acks[i], i, c, DataLog(net', Back(c)), Arrived(net', Back(c))) && TellsTruth(net', acks[i], c)
      ensures Later(acks[i], f)
    {
      TellsTruthGrows(net, net', e, acks[i], c);
      LaterAck(net, c, i, |acks| - 1);
      LaterTrans(acks[i], acks[|acks| - 1], f);
    }
  }

  lemma {:induction false} LaterTrans(f: Ack, g: Ack, h: Ack)
    requires Later(f, g) && Later(g, h)
    ensures Later(f, h)
  {
  }

  lemma {:induction false} PairKeeps(net: Net, e: Epoch, op: Op, src: Epoch, dst: Epoch)
    requires NetOk(net) && NetEnabled(net, e, op)
    ensures PairOk(NetStep(net, e, op), src, dst)
  {
    hide Step, Out, Arrives, Enabled, NodeOk, AckLogOk, DeliveredLog;
    assert PairOk(net, src, dst);
    NodeHeld(net, e);
    StepDelivered(net, e, op, src, dst);
    HeldGrows(net.nodes[e], op);
    if DeliveredLog(NetStep(net, e, op), src, dst) != DeliveredLog(net, src, dst) {
      DeliversOnce(net, e, op);
    }
  }

  lemma {:induction false} DeliversOnce(net: Net, e: Epoch, op: Op)
    requires NetOk(net) && NetEnabled(net, e, op) && Out(net.nodes[e], op).Delivered?
    ensures Basics.Distinct(DeliveredLog(NetStep(net, e, op), net.nodes[e].remote, e))
  {
    hide Inv, Enabled, SenderOk, ReceiversSideOk, AckedOk, HeldOk, ReceiveData, DeliveredLog, Reached, ReportedBack,
         Arrives;
    hide NodeOk;
    OutAddress(net.nodes[e], op);
    ArrivalIsData(net.nodes[e], op);
    NodeKeeps(net, e, op);
    DataDelivery(net, e, op.path, op.data, op.now);
  }

  lemma {:induction false} ArrivalIsData(t: State, op: Op)
    requires Arrives(t, op)
    ensures op.DataOp?
  {
  }

  /** Every step of every transport keeps the network invariant. */
  lemma {:induction false} NetStepKeeps(net: Net, e: Epoch, op: Op)
    requires NetOk(net) && NetEnabled(net, e, op)
    ensures NetOk(NetStep(net, e, op))
  {
    hide NodeOk, Step, Out, Enabled, Arrives, ChannelOk, AckLogOk, PairOk, Extends;
    var net' := NetStep(net, e, op);
    NodeHeld(net, e);
    StepExtends(net, e, op);
    NodeKeeps(net, e, op);
    HeldGrows(net.nodes[e], op);
    forall f | f in net'.nodes ensures net'.nodes[f].epoch == f && NodeOk(net', net'.nodes[f]) {
      if f != e { OtherNode(net, net', e, f); }
    }
    forall c ensures ChannelOk(net', c) && AckLogOk(net', c) {
      ChannelKeeps(net, e, op, c);
      AckLogKeeps(net, e, op, c);
    }
    forall src, dst ensures PairOk(net', src, dst) {
      PairKeeps(net, e, op, src, dst);
    }
  }

  // ----- runs -----

  /** A new transport appears, or one of those present takes a step. */
  datatype Event = Start(epoch: Epoch) | At(node: Epoch, op: Op)

  ghost predicate Happens(net: Net, v: Event) {
    match v
    case Start(e) => e !in net.nodes && e.boot != 0 && e.generation != 0
    case At(e, op) => NetEnabled(net, e, op)
  }

  ghost function Next(net: Net, v: Event): Net
    requires Happens(net, v)
  {
    match v
    case Start(e) => AddNode(net, e)
    case At(e, op) => NetStep(net, e, op)
  }

  ghost predicate Runs(net: Net, events: seq<Event>)
    decreases |events|
  {
    events == [] || (Happens(net, events[0]) && Runs(Next(net, events[0]), events[1..]))
  }

  ghost function End(net: Net, events: seq<Event>): Net
    requires Runs(net, events)
    decreases |events|
  {
    if events == [] then net else End(Next(net, events[0]), events[1..])
  }

  lemma {:induction false} StartKeeps(net: Net, e: Epoch)
    requires NetOk(net) && e !in net.nodes
    ensures NetOk(AddNode(net, e))
  {
    hide NodeOk, AckLogOk, ChannelOk, PairOk;
    var net' := AddNode(net, e);
    StartExtends(net, e);
    NewNodeOk(net, e);
    forall f | f in net'.nodes ensures net'.nodes[f].epoch == f && NodeOk(net', net'.nodes[f]) {
      if f != e { OtherNode(net, net', e, f); }
    }
    forall c ensures ChannelOk(net', c) && AckLogOk(net', c) {
      assert ChannelOk(net, c) && AckLogOk(net, c);
      StartChannel(net, e, c);
      AckLogGrows(net, net', e, c);
    }
    forall src, dst ensures PairOk(net', src, dst) {
      assert PairOk(net, src, dst);
      StartPair(net, e, src, dst);
    }
  }

  lemma {:induction false} StartExtends(net: Net, e: Epoch)
    ensures Extends(net, AddNode(net, e), e)
  {
  }

  lemma {:induction false} StartChannel(net: Net, e: Epoch, c: Channel)
    requires ChannelOk(net, c) && e !in net.nodes
    ensures ChannelOk(AddNode(net, e), c)
  {
  }

  lemma {:induction false} StartPair(net: Net, e: Epoch, src: Epoch, dst: Epoch)
    requires PairOk(net, src, dst) && e !in net.nodes
    ensures PairOk(AddNode(net, e), src, dst)
  {
  }

  lemma {:induction false} NewNodeOk(net: Net, e: Epoch)
    requires NetOk(net) && e !in net.nodes
    ensures NodeOk(AddNode(net, e), New(e))
  {
    hide NodeOk, AckLogOk, LogOk, DataLog, AckLog, Arrived, DeliveredLog, Inv;
    var net' := AddNode(net, e);
    Initially(e);
    forall k ensures Untouched(net', e, NO_EPOCH, k) {
      assert ChannelOk(net, Channel(e, NO_EPOCH, k)) && ChannelOk(net, Channel(NO_EPOCH, e, k));
      SameLogs(net, e, Channel(e, NO_EPOCH, k));
      SameLogs(net, e, Channel(NO_EPOCH, e, k));
    }
    assert PairOk(net, NO_EPOCH, e);
    SameDelivered(net, e, NO_EPOCH);
    FreshPair(net', New(e), NO_EPOCH);
    NewNode(net', e);
  }

  lemma {:induction false} SameLogs(net: Net, e: Epoch, c: Channel)
    ensures DataLog(AddNode(net, e), c) == DataLog(net, c) && AckLog(AddNode(net, e), c) == AckLog(net, c)
    ensures Arrived(AddNode(net, e), c) == Arrived(net, c)
  {
  }

  lemma {:induction false} SameDelivered(net: Net, e: Epoch, src: Epoch)
    ensures DeliveredLog(AddNode(net, e), src, e) == DeliveredLog(net, src, e)
  {
  }

  lemma {:induction false} NewNode(net: Net, e: Epoch)
    requires Inv(New(e)) && SenderOk(net, [], e, NO_EPOCH, map[])
    requires ReceiversSideOk(net, map[], NO_EPOCH, e) && DeliveryOk(net, EMPTY, EMPTY, NO_EPOCH, e)
      && AckedOk(net, {}, e, NO_EPOCH)
    ensures NodeOk(net, New(e))
  {
    hide Inv, SenderOk, ReceiversSideOk, DeliveryOk, AckedOk;
  }

  lemma {:induction false} RunsKeep(net: Net, events: seq<Event>)
    requires NetOk(net) && Runs(net, events)
    ensures NetOk(End(net, events))
    decreases |events|
  {
    hide NetOk, NetStep, NetEnabled, AddNode;
    if events != [] {
      match events[0] {
        case Start(e) => StartKeeps(net, e);
        case At(e, op) => NetStepKeeps(net, e, op);
      }
      RunsKeep(Next(net, events[0]), events[1..]);
    }
  }

  /** The frame x of channel c arrived and carries the datagram n with this payload. */
  ghost predicate BringsPayload(net: Net, c: Channel, x: nat, n: nat, payload: seq<Byte>) {
    Brings(net, c, x, n) && DataLog(net, c)[x - 1].payload == payload
  }

  /**
   * Acknowledgement soundness. In every run, a datagram is acknowledged at its sender only if a data
   * frame carrying it, with the payload the sender has, reached the peer in this pair of epochs.
   */
  lemma {:induction false} AckSoundness(events: seq<Event>, e: Epoch, n: nat)
    requires Runs(EMPTY_NET, events) && e in End(EMPTY_NET, events).nodes
    requires n in End(EMPTY_NET, events).nodes[e].acked
    ensures var net := End(EMPTY_NET, events); var t := net.nodes[e];
      n in t.packets && exists k, x :: BringsPayload(net, Channel(e, t.remote, k), x, n, t.packets[n].payload)
  {
    EmptyOk();
    RunsKeep(EMPTY_NET, events);
    SoundNow(End(EMPTY_NET, events), e, n);
  }

  lemma {:induction false} SoundNow(net: Net, e: Epoch, n: nat)
    requires NetOk(net) && e in net.nodes && n in net.nodes[e].acked
    ensures var t := net.nodes[e];
      n in t.packets && exists k, x :: BringsPayload(net, Channel(e, t.remote, k), x, n, t.packets[n].payload)
  {
    hide NetOk, DataLog, Arrived;
    var t := net.nodes[e];
    AckedReached(net, e, n);
    var k: PathId, x: nat :| Brings(net, Channel(e, t.remote, k), x, n);
    KnownContent(net, e, k, x - 1);
    assert BringsPayload(net, Channel(e, t.remote, k), x, n, t.packets[n].payload);
  }

  lemma {:induction false} AckedReached(net: Net, e: Epoch, n: nat)
    requires NetOk(net) && e in net.nodes && n in net.nodes[e].acked
    ensures n != 0 && Reached(net, e, net.nodes[e].remote, n)
  {
    hide SenderOk, ReceiversSideOk, DeliveryOk, HeldOk, AckLogOk, LanesOk, QueuesOk, Reached, ChannelOk, PairOk;
    assert NodeOk(net, net.nodes[e]);
  }

  /** Every frame sent to the present remote carries what its sender holds under that number. */
  lemma {:induction false} KnownContent(net: Net, e: Epoch, k: PathId, x: nat)
    requires NetOk(net) && e in net.nodes
    requires x < |DataLog(net, Channel(e, net.nodes[e].remote, k))|
    ensures var t := net.nodes[e]; var d := DataLog(net, Channel(e, t.remote, k))[x];
      d.number != 0 ==>
        && d.number in t.packets && d.payload == t.packets[d.number].payload
        && d.order == t.packets[d.number].order && d.number <= t.counter
  {
    hide SentOk, FedOk, ReceiversSideOk, DeliveryOk, HeldOk, AckLogOk, DataLog;
    var t := net.nodes[e];
    assert NodeOk(net, t);
    var i := Find(t.lanes, k);
    assert i < |t.lanes|;
    assert SenderLaneOk(net, t.lanes[i], e, t.remote, t.packets);
    assert PacketsOk(t.packets, t.counter);
  }

  /** At-most-once delivery. No run hands on a datagram number twice for a pair of epochs. */
  lemma {:induction false} AtMostOnceDelivery(events: seq<Event>, src: Epoch, dst: Epoch)
    requires Runs(EMPTY_NET, events)
    ensures Basics.Distinct(DeliveredLog(End(EMPTY_NET, events), src, dst))
  {
    hide NodeOk, AckLogOk, ChannelOk;
    EmptyOk();
    RunsKeep(EMPTY_NET, events);
    assert PairOk(End(EMPTY_NET, events), src, dst);
  }

  /**
   * No receipt is forgotten unreported. In every run, each datagram a transport has delivered from its
   * present remote is still to be reported, was reported by an acknowledgement that was sent, or has
   * fallen 8192 behind the highest.
   */
  lemma {:induction false} NoReceiptForgotten(events: seq<Event>, e: Epoch, n: nat)
    requires Runs(EMPTY_NET, events) && e in End(EMPTY_NET, events).nodes
    requires n in DeliveredLog(End(EMPTY_NET, events), End(EMPTY_NET, events).nodes[e].remote, e)
    ensures var net := End(EMPTY_NET, events); var t := net.nodes[e];
      || n in t.unreported.marks
      || t.received.high - n >= MAX_PACKETS
      || ReportedBack(net, e, t.remote, n)
  {
    EmptyOk();
    RunsKeep(EMPTY_NET, events);
    var net := End(EMPTY_NET, events);
    assert NodeOk(net, net.nodes[e]);
  }

  lemma {:induction false} CompleteNow(net: Net, e: Epoch, f: Ack, now: Time)
    requires NetOk(net) && e in net.nodes && AckWasSent(net, f)
    requires var t := net.nodes[e];
      && f.src == t.remote && f.body.observed == e && t.lastTime <= now
      && Find(t.lanes, f.lane) < |t.lanes| && t.lanes[Find(t.lanes, f.lane)].Up(now)
    ensures var t := net.nodes[e];
      AckRefusal(t, f.lane, f, now).None? <==> t.lanes[Find(t.lanes, f.lane)].ackReceipts.Accepts(f.revision)
  {
    hide SentOk, ContentOk, ReceiversSideOk, DeliveryOk, HeldOk, AckOk, TellsTruth, Inv, AckedOk;
    var t := net.nodes[e];
    assert NodeOk(net, t) && t.epoch == e;
    var c, l := Channel(t.remote, e, f.lane), t.lanes[Find(t.lanes, f.lane)];
    var acks := AckLog(net, c);
    assert AckLogOk(net, c) && SenderLaneOk(net, l, e, t.remote, t.packets);
    AckHigh(f, f.revision - 1, c, DataLog(net, Back(c)), Arrived(net, Back(c)));
    LogLength(l, DataLog(net, Back(c)));
    TopKnown(net, e, f, c);
    if l.ackRevision > 0 {
      if f.revision > l.ackRevision {
        LaterAck(net, c, l.ackRevision - 1, f.revision - 1);
      } else {
        LaterAck(net, c, f.revision - 1, l.ackRevision - 1);
      }
    }
  }

  /** An acknowledgement speaks of no datagram the sender has not numbered. */
  lemma {:induction false} TopKnown(net: Net, e: Epoch, f: Ack, c: Channel)
    requires NetOk(net) && e in net.nodes && c.src == net.nodes[e].remote && c.dst == e && TellsTruth(net, f, c)
    ensures f.body.receivedHigh <= net.nodes[e].counter
  {
    hide NetOk, DataLog, Arrived;
    if f.body.receivedHigh != 0 {
      var m: nat :| f.body.receivedHigh <= m && Reached(net, c.dst, c.src, m);
      var k: PathId, x: nat :| Brings(net, Channel(c.dst, c.src, k), x, m);
      KnownContent(net, e, k, x - 1);
    }
  }
}
