/** Receiving data, receiving and sending acknowledgements, and changing the remote keep the network invariant. */
module NetworkReceive {
  import opened Packets
  import opened ReceiptWindows
  import opened TransportState
  import opened TransportSteps
  import opened TransportLaws
  import opened AckLaws
  import opened Network
  import opened NetworkLaws
  import opened NetworkSteps

  // ----- data -----

  lemma {:induction false} FreshReceiverOk(path: PathId, lane: PathId, now: Time, log: seq<Data>)
    ensures ReceiverLaneOk(NewReceiver(path, lane, now), log, {}, [])
  {
  }

  /** A frame whose number the receiver has not recorded did not arrive before. */
  lemma {:induction false} NewNumber(r: Receiver, log: seq<Data>, x: set<nat>, acks: seq<Ack>, s: nat)
    requires ReceiverLaneOk(r, log, x, acks) && r.receipts.Accepts(s)
    ensures s !in x
  {
  }

  lemma {:induction false} ArriveOk(r: Receiver, log: seq<Data>, x: set<nat>, acks: seq<Ack>, d: Data, now: Time)
    requires ReceiverLaneOk(r, log, x, acks) && r.receipts.Accepts(d.attempt)
    requires 1 <= d.attempt <= |log| && log[d.attempt - 1] == d && r.start <= r.highAt <= now
    ensures ReceiverLaneOk(Arrive(r, d, now), log, x + {d.attempt}, acks)
  {
    var s, r' := d.attempt, Arrive(r, d, now);
    NewNumber(r, log, x, acks, s);
    BytesPast(log, x, r.receipts.high, r'.receipts.high);
    BytesAdd(log, x, s, r'.receipts.high);
    assert r'.receipts == r.receipts.Mark(s);
    forall m ensures m in r'.receipts.marks <==> m in x + {s} && r'.receipts.high - m < MAX_PACKETS {
    }
  }

  lemma {:induction false} DeliverWindow(delivered: seq<nat>, received: Window, n: nat)
    requires WindowOk(delivered, received) && received.Accepts(n) && n != 0
    ensures WindowOk(delivered + [n], received.Mark(n)) && n !in delivered
  {
    assert n !in delivered;
    var w := received.Mark(n);
    forall m ensures m in w.marks <==> m in delivered + [n] && w.high - m < MAX_PACKETS {
    }
  }

  /** Marking a number keeps every earlier one unreported unless it falls out of the window. */
  lemma {:induction false} StillUnreported(received: Window, unreported: Window, n: nat, m: nat)
    requires ReceiptsOk(received, unreported) && received.Accepts(n) && n != 0 && m <= received.high
    ensures m in unreported.marks ==> m in unreported.Mark(n).marks || received.Mark(n).high - m >= MAX_PACKETS
    ensures received.high - m >= MAX_PACKETS ==> received.Mark(n).high - m >= MAX_PACKETS
  {
  }

  lemma {:induction false} DeliverOk(net: Net, net': Net, e: Epoch, t: State, n: nat)
    requires Extends(net, net', e) && DeliveryOk(net, t.received, t.unreported, t.remote, t.epoch)
    requires ReceiptsOk(t.received, t.unreported) && t.received.Accepts(n) && n != 0
    requires DeliveredLog(net', t.remote, t.epoch) == DeliveredLog(net, t.remote, t.epoch) + [n]
    requires Reached(net', t.remote, t.epoch, n)
    ensures DeliveryOk(net', t.received.Mark(n), t.unreported.Mark(n), t.remote, t.epoch)
  {
    hide Reached, ReportedBack, WindowOk, ReceiptsOk, DeliveredLog, Extends;
    var log := DeliveredLog(net, t.remote, t.epoch);
    DeliverWindow(log, t.received, n);
    MarkReceipts(t.received, t.unreported, n);
    forall m | m in log
      ensures Reached(net', t.remote, t.epoch, m)
      ensures m in t.unreported.Mark(n).marks || t.received.Mark(n).high - m >= MAX_PACKETS
        || ReportedBack(net', t.epoch, t.remote, m)
    {
      ReachedGrows(net, net', e, t.remote, t.epoch, m);
      WindowHigh(log, t.received, m);
      StillUnreported(t.received, t.unreported, n, m);
      if ReportedBack(net, t.epoch, t.remote, m) { ReportedBackGrows(net, net', e, t.epoch, t.remote, m); }
    }
  }

  lemma {:induction false} WindowHigh(delivered: seq<nat>, received: Window, m: nat)
    requires WindowOk(delivered, received) && m in delivered
    ensures 1 <= m <= received.high
  {
  }

  /** What a data frame changes. */
  lemma {:induction false} DataEffect(t: State, path: PathId, d: Data, now: Time)
    ensures var r, o := ReceiveData(t, path, d, now).0, ReceiveData(t, path, d, now).1;
      var op := DataOp(path, d, now);
      && r.epoch == t.epoch && r.remote == t.remote && r.held == t.held && r.lanes == t.lanes
      && r.packets == t.packets && r.acked == t.acked && !o.SentData? && !o.SentAck?
      && (DataRefusal(t, path, d, now).Some? ==> r.receivers == t.receivers)
      && (DataRefusal(t, path, d, now).None? ==>
            var v := ReceiverFor(t, path, d.lane, now);
            t.lastTime <= now && d.src == t.remote && d.dst == t.epoch
            && r.receivers == t.receivers[d.lane := if Arrives(t, op) then Arrive(v, d, now) else v])
      && (Arrives(t, op) ==> DataRefusal(t, path, d, now).None?)
      && (if o.Delivered? then
            && Arrives(t, op) && o.number == d.number && d.number != 0 && t.received.Accepts(d.number)
            && r.received == t.received.Mark(d.number) && r.unreported == t.unreported.Mark(d.number)
          else r.received == t.received && r.unreported == t.unreported)
  {
    hide Arrive, ReceiverFor;
  }

  lemma {:induction false} ReceiverLaneData(net: Net, net': Net, e: Epoch, path: PathId, d: Data, now: Time)
    requires e in net.nodes && net.nodes[e].epoch == e && WasSent(net, d)
    requires Extends(net, net', e)
    requires ReceiverSideOk(net, net.nodes[e].receivers, net.nodes[e].remote, e, d.lane)
    requires ReceiversOk(net.nodes[e].receivers, net.nodes[e].lastTime) && DataRefusal(net.nodes[e], path, d, now).None?
    requires var t, c := net.nodes[e], Channel(net.nodes[e].remote, e, d.lane);
      && Arrived(net', c) == Arrived(net, c) + (if Arrives(t, DataOp(path, d, now)) then {d.attempt} else {})
      && AckLog(net', Back(c)) == AckLog(net, Back(c))
    ensures var t := net.nodes[e]; var v := ReceiverFor(t, path, d.lane, now);
      ReceiverSideOk(
        net', t.receivers[d.lane := if Arrives(t, DataOp(path, d, now)) then Arrive(v, d, now) else v],
        t.remote, e, d.lane)
  {
    hide ReceiverLaneOk, Arrive, Extends, DataLog, AckLog, Arrived;
    var t, c := net.nodes[e], Channel(net.nodes[e].remote, e, d.lane);
    var v := ReceiverFor(t, path, d.lane, now);
    FreshReceiverOk(path, d.lane, now, DataLog(net, c));
    assert ReceiverLaneOk(v, DataLog(net, c), Arrived(net, c), AckLog(net, Back(c)));
    DataPrefix(net, net', e, c);
    ReceiverLaneGrows(v, DataLog(net, c), DataLog(net', c), Arrived(net, c), AckLog(net, Back(c)));
    if Arrives(t, DataOp(path, d, now)) {
      ArriveOk(v, DataLog(net', c), Arrived(net, c), AckLog(net, Back(c)), d, now);
    } else {
      assert Arrived(net, c) + {} == Arrived(net, c);
    }
  }

  lemma {:induction false} DataPrefix(net: Net, net': Net, e: Epoch, c: Channel)
    requires Extends(net, net', e)
    ensures DataLog(net, c) <= DataLog(net', c)
  {
  }

  lemma {:induction false} DataKeepsNode(net: Net, e: Epoch, path: PathId, d: Data, now: Time)
    requires NetOk(net) && NetEnabled(net, e, DataOp(path, d, now))
    ensures NodeOk(NetStep(net, e, DataOp(path, d, now)), Step(net.nodes[e], DataOp(path, d, now)))
  {
    hide Inv, Enabled, SenderOk, ReceiverSideOk, DeliveryOk, AckedOk, HeldOk, Extends, Arrives, ReceiveData,
         DataRefusal, ReceiverFor;
    hide DataLog, AckLog, Arrived, DeliveredLog, WasSent, Reached;
    var op := DataOp(path, d, now);
    var t, net' := net.nodes[e], NetStep(net, e, op);
    assert NodeOk(net, t);
    StepExtends(net, e, op);
    StepKeeps(t, op);
    DataEffect(t, path, d, now);
    var r := Step(t, op);
    forall id ensures DataLog(net', Channel(e, t.remote, id)) == DataLog(net, Channel(e, t.remote, id)) {
      StepLogs(net, e, op, Channel(e, t.remote, id));
    }
    SenderGrows(net, net', e, t.lanes, e, t.remote, t.packets);
    forall k ensures ReceiverSideOk(net', r.receivers, t.remote, e, k) {
      DataReceiver(net, e, path, d, now, k);
    }
    StepDelivered(net, e, op, t.remote, e);
    DataDelivery(net, e, path, d, now);
  }

  lemma {:induction false} DataReceiver(net: Net, e: Epoch, path: PathId, d: Data, now: Time, k: PathId)
    requires NetOk(net) && NetEnabled(net, e, DataOp(path, d, now))
    ensures var t, op := net.nodes[e], DataOp(path, d, now);
      ReceiverSideOk(NetStep(net, e, op), Step(t, op).receivers, t.remote, e, k)
  {
    hide Inv, Enabled, SenderOk, ReceiverLaneOk, DeliveryOk, AckedOk, HeldOk, Extends, ReceiveData, ReceiverFor,
         DataRefusal, Arrives;
    hide DataLog, AckLog, Arrived;
    var op := DataOp(path, d, now);
    var t, net' := net.nodes[e], NetStep(net, e, op);
    assert NodeOk(net, t) && ReceiverSideOk(net, t.receivers, t.remote, e, k);
    StepExtends(net, e, op);
    DataEffect(t, path, d, now);
    StepLogs(net, e, op, Channel(t.remote, e, k));
    StepLogs(net, e, op, Channel(e, t.remote, k));
    if DataRefusal(t, path, d, now).None? && k == d.lane {
      ReceiversOfInv(t);
      ReceiverLaneData(net, net', e, path, d, now);
    } else {
      ReceiverGrows(net, net', e, t.receivers, t.remote, e, k);
    }
  }

  lemma {:induction false} ReceiversOfInv(t: State)
    requires Inv(t)
    ensures ReceiversOk(t.receivers, t.lastTime) && ReceiptsOk(t.received, t.unreported)
  {
  }

  lemma {:induction false} DataDelivery(net: Net, e: Epoch, path: PathId, d: Data, now: Time)
    requires NetOk(net) && NetEnabled(net, e, DataOp(path, d, now))
    ensures var t, op := net.nodes[e], DataOp(path, d, now); var r, net' := Step(t, op), NetStep(net, e, op);
      DeliveryOk(net', r.received, r.unreported, t.remote, e) && AckedOk(net', t.acked, e, t.remote)
  {
    hide Inv, Enabled, SenderOk, ReceiverLaneOk, DeliveryOk, AckedOk, HeldOk, Extends, ReceiveData, ReceiverFor,
         DataRefusal, Arrives;
    hide DeliveredLog, Reached;
    var op := DataOp(path, d, now);
    var t, net' := net.nodes[e], NetStep(net, e, op);
    assert NodeOk(net, t);
    StepExtends(net, e, op);
    DataEffect(t, path, d, now);
    StepDelivered(net, e, op, t.remote, e);
    ReceiversOfInv(t);
    AckedGrows(net, net', e, t);
    if Out(t, op).Delivered? {
      ReachesNow(net, e, path, d, now);
      DeliverOk(net, net', e, t, d.number);
    } else {
      assert DeliveredLog(net, t.remote, e) + [] == DeliveredLog(net, t.remote, e);
      DeliveryGrows(net, net', e, t);
    }
  }

  lemma {:induction false} AckedGrows(net: Net, net': Net, e: Epoch, t: State)
    requires Extends(net, net', e) && AckedOk(net, t.acked, t.epoch, t.remote)
    ensures AckedOk(net', t.acked, t.epoch, t.remote)
  {
    hide Reached, Extends;
    forall n | n in t.acked ensures Reached(net', t.epoch, t.remote, n) {
      ReachedGrows(net, net', e, t.epoch, t.remote, n);
    }
  }

  /** A frame that arrives makes its datagram reach the transport. */
  lemma {:induction false} ReachesNow(net: Net, e: Epoch, path: PathId, d: Data, now: Time)
    requires NetEnabled(net, e, DataOp(path, d, now)) && net.nodes[e].epoch == e
      && Arrives(net.nodes[e], DataOp(path, d, now))
    ensures Reached(NetStep(net, e, DataOp(path, d, now)), net.nodes[e].remote, e, d.number)
  {
    hide Enabled, DataLog, Arrived, ReceiveData;
    var op := DataOp(path, d, now);
    var c := Channel(net.nodes[e].remote, e, d.lane);
    OutAddress(net.nodes[e], op);
    StepLogs(net, e, op, c);
    DataEffect(net.nodes[e], path, d, now);
    assert Brings(NetStep(net, e, op), c, d.attempt, d.number);
  }

  // ----- acknowledgements received -----

  /** The lane as it is when the acknowledgement is applied: its revision recorded. */
  function Recorded(l: Lane, revision: nat): Lane {
    l.(ackReceipts := l.ackReceipts.Mark(revision), ackRevision := Max(revision, l.ackRevision))
  }

  /** Acknowledgements sent later say at least as much. */
  lemma {:induction false} LaterAck(net: Net, c: Channel, i: nat, j: nat)
    requires AckLogOk(net, c) && i <= j < |AckLog(net, c)|
    ensures Later(AckLog(net, c)[i], AckLog(net, c)[j])
  {
    hide AckOk, TellsTruth;
  }

  /** What lane l knows after acknowledgement f is what the newest accepted acknowledgement says. */
  lemma {:induction false} FedAfter(l: Lane, l': Lane, acks: seq<Ack>, f: Ack)
    requires FedOk(l, acks) && l.ackReceipts.Accepts(f.revision)
    requires 1 <= f.revision <= |acks| && acks[f.revision - 1] == f
    requires forall i, j :: 0 <= i <= j < |acks| ==> Later(acks[i], acks[j])
    requires SameFeedback(Fed(Recorded(l, f.revision), f.body, f.revision > l.ackRevision), l')
    ensures FedOk(l', acks)
    ensures l'.receivedHigh == if f.revision > l.ackRevision then f.body.high else l.receivedHigh
  {
    if l.ackRevision > 0 && f.revision > l.ackRevision { assert Later(acks[l.ackRevision - 1], acks[f.revision - 1]); }
    if f.revision <= l.ackRevision { assert Later(acks[f.revision - 1], acks[l.ackRevision - 1]); }
  }

  /** The bytes a lane knows to be sent through the highest reported number stay right. */
  lemma {:induction false} SentAfter(l: Lane, l': Lane, log: seq<Data>, f: Ack)
    requires SentOk(l, log) && Part(l, l') && f.body.high <= |log|
    requires SameFeedback(Fed(Recorded(l, f.revision), f.body, f.revision > l.ackRevision), l')
    requires l'.receivedHigh == if f.revision > l.ackRevision then f.body.high else l.receivedHigh
    ensures SentOk(l', log)
    ensures f.revision > l.ackRevision && l'.receivedThrough > 0 ==>
      l'.receivedThrough == Base(l, log) + Total(log, f.body.high)
  {
    var a := f.body;
    if f.revision > l.ackRevision && a.high in l.attempts {
      assert AttemptOk(l.attempts[a.high], a.high, log, Base(l, log));
    }
    forall s | s in l'.attempts ensures AttemptOk(l'.attempts[s], s, log, Base(l', log)) {
      assert AttemptOk(l.attempts[s], s, log, Base(l, log));
    }
  }

  /** Acknowledgement soundness on one lane: a datagram the acknowledgement claims has arrived. */
  lemma {:induction false} ClaimReached(net: Net, l: Lane, src: Epoch, dst: Epoch, f: Ack, i: nat, n: nat)
    requires SentOk(l, DataLog(net, Channel(src, dst, l.id)))
    requires AckOk(f, i, Channel(dst, src, l.id), DataLog(net, Channel(src, dst, l.id)),
      Arrived(net, Channel(src, dst, l.id)))
    requires var fresh_ := f.revision > l.ackRevision;
      var fed := Fed(Recorded(l, f.revision), f.body, fresh_);
      && Claimed(Recorded(l, f.revision), f.body, fresh_, n)
      && (fresh_ && fed.receivedThrough > 0 ==>
         fed.receivedThrough == Base(l, DataLog(net, Channel(src, dst, l.id)))
           + Total(DataLog(net, Channel(src, dst, l.id)), f.body.high))
    ensures Reached(net, src, dst, n)
  {
    var c := Channel(src, dst, l.id);
    var log, x, a, fresh_ := DataLog(net, c), Arrived(net, c), f.body, f.revision > l.ackRevision;
    var q := Recorded(l, f.revision);
    var s :| s in q.attempts && q.attempts[s].carried.Datagram? && q.attempts[s].carried.number == n
      && (a.Reports(s) || (fresh_ && s <= a.high && Proves(Fed(q, a, fresh_), a)));
    assert AttemptOk(l.attempts[s], s, log, Base(l, log));
    if !a.Reports(s) {
      EqualTotals(log, x, a.high, s);
    }
    assert Brings(net, c, s, n);
  }

  /** What an accepted acknowledgement changes. */
  lemma {:induction false} AckEffect(t: State, path: PathId, f: Ack, late: set<nat>, now: Time)
    requires AckRefusal(t, path, f, now).None?
    ensures var r, i := ReceiveAck(t, path, f, late, now).0, Find(t.lanes, path);
      var l := t.lanes[i];
      && i < |t.lanes| == |r.lanes| && f.lane == l.id && f.src == t.remote && f.body.observed == t.epoch
      && l.ackReceipts.Accepts(f.revision)
      && SameOutside(t.(acked := r.acked), r)
      && (forall j :: 0 <= j < |t.lanes| ==> Part(t.lanes[j], r.lanes[j]))
      && (forall j :: 0 <= j < |t.lanes| && j != i ==> SameFeedback(t.lanes[j], r.lanes[j]))
      && SameFeedback(Fed(Recorded(l, f.revision), f.body, f.revision > l.ackRevision), r.lanes[i])
      && (forall n :: n in r.acked ==>
         n in t.acked || f.body.Received(n) || Claimed(Recorded(l, f.revision), f.body, f.revision > l.ackRevision, n))
  {
    hide ApplyAck, Fed, Claimed, SameFeedback, Part;
    var i := Find(t.lanes, path);
    var l, fresh_ := t.lanes[i], f.revision > t.lanes[i].ackRevision;
    var u := t.(lastTime := now, lanes := t.lanes[i := Recorded(l, f.revision)]);
    AckLanes(u, i, f.body, fresh_, late);
    AckNumbers(u, i, f.body, fresh_, late);
    RecordedPart(l, f.revision, ApplyAck(u, i, f.body, fresh_, late).lanes[i]);
  }

  lemma {:induction false} RecordedPart(l: Lane, revision: nat, r: Lane)
    requires Part(Recorded(l, revision), r)
    ensures Part(l, r)
  {
  }

  lemma {:induction false} AckLane(net: Net, e: Epoch, path: PathId, f: Ack, late: set<nat>, now: Time)
    requires NetOk(net) && NetEnabled(net, e, AckOp(path, f, late, now)) && AckRefusal(net.nodes[e], path, f, now).None?
    ensures var t := net.nodes[e]; var r, i := ReceiveAck(t, path, f, late, now).0, Find(t.lanes, path);
      && i < |t.lanes| == |r.lanes| && SenderLaneOk(net, r.lanes[i], e, t.remote, t.packets)
      && AckedOk(net, r.acked, e, t.remote)
  {
    hide Inv, Enabled, SentOk, FedOk, ContentOk, AckOk, TellsTruth, Later, ReceiversSideOk, DeliveryOk, HeldOk,
         ReceiveAck, AckRefusal, Fed, Claimed;
    hide DataLog, AckLog, Arrived, Reached, SameFeedback, Part;
    var t := net.nodes[e];
    assert NodeOk(net, t);
    AckEffect(t, path, f, late, now);
    var r, i := ReceiveAck(t, path, f, late, now).0, Find(t.lanes, path);
    var l, c := t.lanes[i], Channel(t.remote, e, t.lanes[i].id);
    var acks := AckLog(net, c);
    assert SenderLaneOk(net, l, e, t.remote, t.packets) && AckLogOk(net, c);
    assert AckWasSent(net, f) && acks[f.revision - 1] == f;
    forall j, k | 0 <= j <= k < |acks| ensures Later(acks[j], acks[k]) { LaterAck(net, c, j, k); }
    FedAfter(l, r.lanes[i], acks, f);
    AckHigh(f, f.revision - 1, c, DataLog(net, Back(c)), Arrived(net, Back(c)));
    SentAfter(l, r.lanes[i], DataLog(net, Back(c)), f);
    PartId(l, r.lanes[i]);
    forall n | n in r.acked ensures Reached(net, e, t.remote, n) {
      if n !in t.acked && f.body.Received(n) {
        ToldReached(net, f, c, n);
      } else if n !in t.acked {
        FedThrough(l, r.lanes[i], f);
        ClaimReached(net, l, e, t.remote, f, f.revision - 1, n);
      }
    }
  }

  lemma {:induction false} PartId(l: Lane, r: Lane)
    requires Part(l, r)
    ensures r.id == l.id
  {
  }

  lemma {:induction false} FedThrough(l: Lane, r: Lane, f: Ack)
    requires SameFeedback(Fed(Recorded(l, f.revision), f.body, f.revision > l.ackRevision), r)
    ensures Fed(Recorded(l, f.revision), f.body, f.revision > l.ackRevision).receivedThrough == r.receivedThrough
  {
  }

  lemma {:induction false} AckHigh(f: Ack, i: nat, c: Channel, log: seq<Data>, x: set<nat>)
    requires AckOk(f, i, c, log, x)
    ensures f.body.high <= |log|
  {
  }

  lemma {:induction false} ToldReached(net: Net, f: Ack, c: Channel, n: nat)
    requires TellsTruth(net, f, c) && f.body.Received(n)
    ensures Reached(net, c.dst, c.src, n)
  {
  }

  lemma {:induction false} AckSender(net: Net, e: Epoch, path: PathId, f: Ack, late: set<nat>, now: Time)
    requires NetOk(net) && NetEnabled(net, e, AckOp(path, f, late, now)) && AckRefusal(net.nodes[e], path, f, now).None?
    ensures var t := net.nodes[e]; var r := ReceiveAck(t, path, f, late, now).0;
      SenderOk(net, r.lanes, e, t.remote, t.packets)
  {
    hide Inv, Enabled, SenderLaneOk, AckLogOk, ReceiversSideOk, DeliveryOk, HeldOk, ReceiveAck, AckRefusal, Fed,
         Claimed, SameFeedback, AckWasSent;
    var t := net.nodes[e];
    assert NodeOk(net, t);
    AckEffect(t, path, f, late, now);
    AckLane(net, e, path, f, late, now);
    var r, i := ReceiveAck(t, path, f, late, now).0, Find(t.lanes, path);
    forall j | 0 <= j < |t.lanes| ensures SenderLaneOk(net, r.lanes[j], e, t.remote, t.packets) {
      if j != i { PartLane(net, t.lanes[j], r.lanes[j], e, t.remote, t.packets); }
    }
    SameIds(t.lanes, r.lanes);
  }

  lemma {:induction false} AckKeepsNode(net: Net, e: Epoch, path: PathId, f: Ack, late: set<nat>, now: Time)
    requires NetOk(net) && NetEnabled(net, e, AckOp(path, f, late, now))
    ensures NodeOk(NetStep(net, e, AckOp(path, f, late, now)), Step(net.nodes[e], AckOp(path, f, late, now)))
  {
    hide Inv, Enabled, SenderOk, ReceiversSideOk, DeliveryOk, AckedOk, HeldOk, Extends, Arrives, ReceiveAck, AckRefusal;
    hide AckLogOk, AckWasSent;
    var op := AckOp(path, f, late, now);
    var t, net' := net.nodes[e], NetStep(net, e, op);
    assert NodeOk(net, t);
    StepExtends(net, e, op);
    StepKeeps(t, op);
    AckQuiet(t, path, f, late, now);
    NoArrival(t, op);
    var r := Step(t, op);
    if AckRefusal(t, path, f, now).None? {
      AckEffect(t, path, f, late, now);
      AckSender(net, e, path, f, late, now);
      AckLane(net, e, path, f, late, now);
    } else {
      RefusedOutside(t, path, f, late, now);
    }
    SenderGrows(net, net', e, r.lanes, e, t.remote, t.packets);
    ReceiversGrow(net, net', e, t.receivers, t.remote, e);
    AckedGrows(net, net', e, r);
    DeliveryOnly(net, net', e, t);
  }

  lemma {:induction false} NoArrival(t: State, op: Op)
    requires !op.DataOp?
    ensures !Arrives(t, op)
  {
  }

  lemma {:induction false} RefusedOutside(t: State, path: PathId, f: Ack, late: set<nat>, now: Time)
    requires AckRefusal(t, path, f, now).Some?
    ensures var r := ReceiveAck(t, path, f, late, now).0; SameOutside(t, r) && r.lanes == t.lanes
  {
  }

  lemma {:induction false} DeliveryOnly(net: Net, net': Net, e: Epoch, t: State)
    requires Extends(net, net', e) && DeliveryOk(net, t.received, t.unreported, t.remote, t.epoch)
    requires DeliveredLog(net', t.remote, t.epoch) == DeliveredLog(net, t.remote, t.epoch)
    ensures DeliveryOk(net', t.received, t.unreported, t.remote, t.epoch)
  {
    hide DeliveryOk, Extends;
    DeliveryGrows(net, net', e, t.(acked := {}));
  }
}
