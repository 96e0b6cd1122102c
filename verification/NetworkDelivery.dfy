/** Delivery is complete: what the peer sent and the network brings is handed on, with the exact exceptions. */
module NetworkDelivery {
  import opened Packets
  import opened ReceiptWindows
  import opened TransportState
  import opened TransportSteps
  import opened TransportLaws
  import opened Network
  import opened NetworkLaws
  import opened NetworkSteps
  import opened NetworkTheorems
  import opened NetworkHistory

  // ----- every frame sent is well-formed -----

  /** A ping is empty; a datagram has an order and 1 to 9000 bytes. */
  predicate WellFormed(d: Data) {
    if d.number == 0 then d.order == Order(false, 0) && d.payload == []
    else d.order.index > 0 && 1 <= |d.payload| <= 9000
  }

  ghost predicate FormedOk(net: Net, c: Channel) {
    forall k :: 0 <= k < |DataLog(net, c)| ==> WellFormed(DataLog(net, c)[k])
  }

  lemma {:induction false} SentIsFormed(t: State, op: Op)
    requires Inv(t) && Enabled(t, op) && Out(t, op).SentData?
    ensures WellFormed(Out(t, op).data)
  {
    hide Inv, ReceiveAck, ReceiveData, BuildAck, PopQueue, HeadOf, Oldest, AckDue, Register;
    OnlySenders(t, op);
    if op.SendOp? { FirstIsFormed(t, op.c, op.i, op.now); }
    if op.MoveOp? || op.RepairOp? || op.CopyOp? { PacketFormed(t, op.n); }
  }

  lemma {:induction false} PacketFormed(t: State, n: nat)
    requires Inv(t) && n in t.packets
    ensures n != 0 && t.packets[n].order.index > 0 && 1 <= |t.packets[n].payload| <= MAX_DATAGRAM
  {
    assert TransmittedOk(t.packets[n]);
  }

  lemma {:induction false} FirstIsFormed(t: State, c: Class, i: nat, now: Time)
    requires Inv(t) && HeadOf(t, c).Some? && i < |t.lanes|
    ensures var u := Register(PopQueue(t, c), HeadOf(t, c).value, now);
      t.counter + 1 in u.packets && i < |u.lanes| && WellFormed(TransmittedData(u, t.counter + 1, i))
  {
    hide PopQueue, HeadOf, LanesOk, ReceiptsOk, ReceiversOk, Conserved, Admitted, PacketsOk, PendingOk;
    PopKeeps(t, c);
    TransportRuns.PopPackets(t, c);
  }

  lemma {:induction false} StepFormed(net: Net, e: Epoch, op: Op, c: Channel)
    requires NetOk(net) && NetEnabled(net, e, op) && FormedOk(net, c)
    ensures FormedOk(NetStep(net, e, op), c)
  {
    hide NetOk, DataLog, Step, Out, Enabled, Arrives, NetStep, WellFormed, Inv;
    NodeHeld(net, e);
    StepLogs(net, e, op, c);
    if Out(net.nodes[e], op).SentData? { SentIsFormed(net.nodes[e], op); }
  }

  lemma {:induction false} RunsKeepFormed(net: Net, events: seq<Event>, c: Channel)
    requires NetOk(net) && NetworkTheorems.Runs(net, events) && FormedOk(net, c)
    ensures FormedOk(End(net, events), c)
    decreases |events|
  {
    hide NetOk, NetStep, NetEnabled, AddNode, FormedOk;
    if events != [] {
      match events[0] {
        case Start(e) => StartKeeps(net, e); StartFormed(net, e, c);
        case At(e, op) => NetStepKeeps(net, e, op); StepFormed(net, e, op, c);
      }
      RunsKeepFormed(Next(net, events[0]), events[1..], c);
    }
  }

  lemma {:induction false} StartFormed(net: Net, e: Epoch, c: Channel)
    requires FormedOk(net, c)
    ensures FormedOk(AddNode(net, e), c)
  {
    hide DataLog;
    SameLogs(net, e, c);
  }

  // ----- delivery -----

  /** The lane on which a frame of the peer is expected is up, and no other one brought its frames before. */
  predicate Expects(t: State, path: PathId, d: Data, now: Time) {
    var i := Find(t.lanes, path);
    && t.lastTime <= now && i < |t.lanes| && t.lanes[i].Up(now) && t.lanes[i].remoteId == d.lane
    && (d.lane in t.receivers ==> t.receivers[d.lane].path == path)
  }

  /** A frame of the channel that arrived is so far ahead that this one can no longer be told from a repetition. */
  ghost predicate LeftBehind(arrived: set<nat>, attempt: nat) {
    exists x :: x in arrived && x >= attempt + MAX_PACKETS
  }

  /**
   * Delivery completeness. A DATA frame the peer sent in this pair of epochs, brought in any order to the lane
   * that expects it, is never refused. It hands on its datagram exactly if it carries one, that number was not
   * handed on before in this pair nor one 8192 or more ahead, and no frame 8192 or more ahead of it on the same
   * lane has arrived.
   */
  lemma {:induction false} DataCompleteness(events: seq<Event>, e: Epoch, path: PathId, d: Data, now: Time)
    requires NetworkTheorems.Runs(EMPTY_NET, events) && e in End(EMPTY_NET, events).nodes
    requires WasSent(End(EMPTY_NET, events), d)
    requires var t := End(EMPTY_NET, events).nodes[e]; d.src == t.remote && d.dst == e && Expects(t, path, d, now)
    ensures var net := End(EMPTY_NET, events); var out := ReceiveData(net.nodes[e], path, d, now).1;
      && !out.Refused?
      && (out.Delivered? ==> out == Delivered(d.number, d.order, d.payload))
      && (out.Delivered? <==>
            && d.number != 0 && !Disposed(DeliveredLog(net, d.src, e), d.number)
            && !LeftBehind(Arrived(net, Channel(d.src, e, d.lane)), d.attempt))
  {
    hide NetworkTheorems.Runs, End, NetOk, DataLog, Arrived, DeliveredLog, FormedOk, FateOk;
    HistoryHolds(events);
    EmptyOk();
    EmptyFormed(Channel(d.src, e, d.lane));
    RunsKeepFormed(EMPTY_NET, events, Channel(d.src, e, d.lane));
    CompleteAt(End(EMPTY_NET, events), e, path, d, now);
  }

  lemma {:induction false} EmptyFormed(c: Channel)
    ensures FormedOk(EMPTY_NET, c)
  {
  }

  lemma {:induction false} CompleteAt(net: Net, e: Epoch, path: PathId, d: Data, now: Time)
    requires NetOk(net) && e in net.nodes && WasSent(net, d)
    requires d.src == net.nodes[e].remote && d.dst == e && Expects(net.nodes[e], path, d, now)
    requires FormedOk(net, Channel(d.src, e, d.lane)) && FateOk(net, Channel(d.src, e, d.lane))
    ensures var out := ReceiveData(net.nodes[e], path, d, now).1;
      && !out.Refused?
      && (out.Delivered? ==> out == Delivered(d.number, d.order, d.payload))
      && (out.Delivered? <==>
            && d.number != 0 && !Disposed(DeliveredLog(net, d.src, e), d.number)
            && !LeftBehind(Arrived(net, Channel(d.src, e, d.lane)), d.attempt))
  {
    hide NetOk, DataLog, Arrived, DeliveredLog, Arrive;
    var t, c := net.nodes[e], Channel(d.src, e, d.lane);
    NodeHeld(net, e);
    assert WellFormed(d);
    DeliveredWindow(net, e);
    if d.number != 0 { DisposedIff(DeliveredLog(net, d.src, e), t.received, d.number); }
    LaneSeen(net, e, path, d, now);
  }

  lemma {:induction false} DisposedIff(delivered: seq<nat>, received: Window, n: nat)
    requires WindowOk(delivered, received) && n != 0
    ensures received.Accepts(n) <==> !Disposed(delivered, n)
  {
  }

  lemma {:induction false} LaneSeen(net: Net, e: Epoch, path: PathId, d: Data, now: Time)
    requires NetOk(net) && e in net.nodes && d.src == net.nodes[e].remote && d.dst == e && d.attempt > 0
    ensures var arrived := Arrived(net, Channel(d.src, e, d.lane));
      ReceiverFor(net.nodes[e], path, d.lane, now).receipts.Accepts(d.attempt) <==>
        d.attempt !in arrived && !LeftBehind(arrived, d.attempt)
  {
    hide SenderOk, DeliveryOk, AckedOk, HeldOk, AckLogOk, Inv, DataLog, Arrived, AckLog, Bytes;
    assert NodeOk(net, net.nodes[e]);
    assert ReceiverSideOk(net, net.nodes[e].receivers, d.src, e, d.lane);
  }
}
