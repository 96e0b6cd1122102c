/** Runs of the network read as histories: what was accepted, what became of every arrival, what frames say. */
module NetworkHistory {
  import opened Packets
  import opened ReceiptWindows
  import opened TransportState
  import opened TransportSteps
  import opened TransportLaws
  import Runs = TransportRuns
  import opened Network
  import opened NetworkLaws
  import opened NetworkSteps
  import opened NetworkTheorems
  import opened AdoptionLaws

  // ----- a transport's own run -----

  /** The operations of one transport in a run of the network. */
  function OpsOf(events: seq<Event>, e: Epoch): seq<Op> {
    if events == [] then [] else
      (if events[0].At? && events[0].node == e then [events[0].op] else []) + OpsOf(events[1..], e)
  }

  /** Every transport of a network run is where its own operations take a new transport. */
  lemma {:induction false} Projects(net: Net, events: seq<Event>, e: Epoch)
    requires NetworkTheorems.Runs(net, events) && e in net.nodes
    ensures Runs.Executes(net.nodes[e], OpsOf(events, e)) && e in End(net, events).nodes
    ensures Runs.Final(net.nodes[e], OpsOf(events, e)) == End(net, events).nodes[e]
    decreases |events|
  {
    hide Step, Enabled, Out, Arrives;
    if events != [] {
      var v, net' := events[0], Next(net, events[0]);
      Projects(net', events[1..], e);
      if v.At? && v.node == e {
        assert OpsOf(events, e)[1..] == OpsOf(events[1..], e);
      } else {
        assert net'.nodes[e] == net.nodes[e];
        assert OpsOf(events, e) == OpsOf(events[1..], e);
      }
    }
  }

  lemma {:induction false} ProjectsNew(net: Net, events: seq<Event>, e: Epoch)
    requires NetworkTheorems.Runs(net, events) && e !in net.nodes && e in End(net, events).nodes
    ensures Runs.Executes(New(e), OpsOf(events, e)) && Runs.Final(New(e), OpsOf(events, e)) == End(net, events).nodes[e]
    decreases |events|
  {
    hide Step, Enabled, Out, Arrives, New;
    if events != [] {
      var net' := Next(net, events[0]);
      assert OpsOf(events, e) == OpsOf(events[1..], e);
      if e in net'.nodes { Projects(net', events[1..], e); } else { ProjectsNew(net', events[1..], e); }
    }
  }

  // ----- acknowledgements -----

  /** The acknowledgement revisions a transport has accepted on a lane since it adopted its present remote. */
  ghost function AcceptedRevisions(events: seq<Event>, e: Epoch, lane: PathId): seq<nat>
    requires Runs.Executes(New(e), OpsOf(events, e))
  {
    History(New(e), OpsOf(events, e), NOTHING_YET).Revisions(lane)
  }

  /**
   * Acknowledgement completeness. An acknowledgement the peer sent in this pair of epochs, delivered in
   * any order on its lane while the lane is up, is refused exactly when its revision was accepted before in
   * this adoption, or an accepted one is 8192 or more ahead of it.
   */
  lemma {:induction false} AckCompleteness(events: seq<Event>, e: Epoch, f: Ack, now: Time)
    requires NetworkTheorems.Runs(EMPTY_NET, events) && e in End(EMPTY_NET, events).nodes
    requires AckWasSent(End(EMPTY_NET, events), f)
    requires var t := End(EMPTY_NET, events).nodes[e];
      && f.src == t.remote && f.body.observed == e && t.lastTime <= now
      && Find(t.lanes, f.lane) < |t.lanes| && t.lanes[Find(t.lanes, f.lane)].Up(now)
    ensures Runs.Executes(New(e), OpsOf(events, e))
    ensures var accepted := AcceptedRevisions(events, e, f.lane);
      AckRefusal(End(EMPTY_NET, events).nodes[e], f.lane, f, now).Some? <==>
        f.revision in accepted || exists m :: m in accepted && m >= f.revision + MAX_PACKETS
  {
    hide NetworkTheorems.Runs, End, Runs.Executes, Runs.Final, History, OpsOf, AckRefusal, Remembers;
    EmptyOk();
    RunsKeep(EMPTY_NET, events);
    CompleteNow(End(EMPTY_NET, events), e, f, now);
    ProjectsNew(EMPTY_NET, events, e);
    OncePerAdoption(e, OpsOf(events, e));
    var t, rec := End(EMPTY_NET, events).nodes[e], History(New(e), OpsOf(events, e), NOTHING_YET);
    WindowOf(t, rec, f.lane);
    RefusedExactly(rec.Revisions(f.lane), f.revision);
  }

  lemma {:induction false} WindowOf(t: State, rec: Record, lane: PathId)
    requires Remembers(t, rec) && Find(t.lanes, lane) < |t.lanes|
    ensures t.lanes[Find(t.lanes, lane)].ackReceipts == MarkAll(rec.Revisions(lane))
  {
    assert LaneRemembers(t.lanes, rec, lane);
  }

  lemma {:induction false} RefusedExactly(seqs: seq<nat>, n: nat)
    ensures !MarkAll(seqs).Accepts(n) <==> n in seqs || exists m :: m in seqs && m >= n + MAX_PACKETS
  {
    RefusedIffSeenOrTooOld(seqs, n);
    WindowIsTheRecentSet(seqs, n);
    forall m | m in seqs ensures m <= MarkAll(seqs).high { WindowIsTheRecentSet(seqs, m); }
    if !MarkAll(seqs).Accepts(n) && n !in seqs { assert MarkAll(seqs).high in seqs; }
  }

  // ----- what becomes of an arrival -----

  /** The number was delivered, or is refused for good: one 8192 or more ahead of it was delivered. */
  ghost predicate Disposed(delivered: seq<nat>, n: nat) {
    n in delivered || exists m :: m in delivered && m >= n + MAX_PACKETS
  }

  /** Arrivals are frames of the log, and every datagram they brought is disposed of. */
  ghost predicate FateOk(net: Net, c: Channel) {
    forall x :: x in Arrived(net, c) ==>
      && 1 <= x <= |DataLog(net, c)|
      && (DataLog(net, c)[x - 1].number != 0 ==>
         Disposed(DeliveredLog(net, c.src, c.dst), DataLog(net, c)[x - 1].number))
  }

  lemma {:induction false} DisposedGrows(delivered: seq<nat>, more: seq<nat>, n: nat)
    requires Disposed(delivered, n)
    ensures Disposed(delivered + more, n)
  {
    if n !in delivered {
      var m :| m in delivered && m >= n + MAX_PACKETS;
      assert m in delivered + more;
    }
  }

  lemma {:induction false} FateGrows(net: Net, net': Net, c: Channel)
    requires FateOk(net, c) && Arrived(net', c) == Arrived(net, c)
    requires DataLog(net, c) <= DataLog(net', c) && DeliveredLog(net, c.src, c.dst) <= DeliveredLog(net', c.src, c.dst)
    ensures FateOk(net', c)
  {
    hide DataLog, Arrived, DeliveredLog;
    var d, d' := DeliveredLog(net, c.src, c.dst), DeliveredLog(net', c.src, c.dst);
    forall x | x in Arrived(net', c) && DataLog(net', c)[x - 1].number != 0
      ensures Disposed(d', DataLog(net', c)[x - 1].number)
    {
      assert d' == d + d'[|d|..];
      DisposedGrows(d, d'[|d|..], DataLog(net, c)[x - 1].number);
    }
  }

  /** A datagram that arrives is delivered, or the receipt window tells why not. */
  lemma {:induction false} ArrivalDisposed(net: Net, e: Epoch, op: Op)
    requires NetOk(net) && NetEnabled(net, e, op) && Arrives(net.nodes[e], op) && op.data.number != 0
    ensures Disposed(DeliveredLog(NetStep(net, e, op), op.data.src, op.data.dst), op.data.number)
  {
    hide NetOk, DeliveredLog, ReceiverFor, Arrive, DataRefusal, Step;
    var t := net.nodes[e];
    NodeHeld(net, e);
    OutAddress(t, op);
    StepDelivered(net, e, op, t.remote, e);
    if !Out(t, op).Delivered? {
      DeliveredWindow(net, e);
      var delivered := DeliveredLog(net, t.remote, e);
      assert !t.received.Accepts(op.data.number);
      assert Disposed(delivered, op.data.number);
      DisposedGrows(delivered, [], op.data.number);
    }
  }

  lemma {:induction false} DeliveredWindow(net: Net, e: Epoch)
    requires NetOk(net) && e in net.nodes
    ensures WindowOk(DeliveredLog(net, net.nodes[e].remote, e), net.nodes[e].received)
  {
    hide SenderOk, ReceiversSideOk, AckedOk, HeldOk, AckLogOk, Inv, WindowOk;
    assert NodeOk(net, net.nodes[e]);
  }

  lemma {:induction false} StepFate(net: Net, e: Epoch, op: Op, c: Channel)
    requires NetOk(net) && NetEnabled(net, e, op) && FateOk(net, c)
    ensures FateOk(NetStep(net, e, op), c)
  {
    hide NetOk, DataLog, Arrived, DeliveredLog, Step, Out, Enabled, Arrives, NetStep;
    var net' := NetStep(net, e, op);
    NodeHeld(net, e);
    StepExtends(net, e, op);
    StepLogs(net, e, op, c);
    if Arrives(net.nodes[e], op) { ArrivalIsData(net.nodes[e], op); }
    if Arrives(net.nodes[e], op) && c == ChannelOf(op) {
      if op.data.number != 0 { ArrivalDisposed(net, e, op); }
      Joins(net, net', op.data, c);
    } else {
      FateGrows(net, net', c);
    }
  }

  ghost function ChannelOf(op: Op): Channel {
    if op.DataOp? then Channel(op.data.src, op.data.dst, op.data.lane) else Channel(NO_EPOCH, NO_EPOCH, 0)
  }

  lemma {:induction false} Joins(net: Net, net': Net, d: Data, c: Channel)
    requires FateOk(net, c) && WasSent(net, d) && c == Channel(d.src, d.dst, d.lane)
    requires Arrived(net', c) == Arrived(net, c) + {d.attempt}
    requires DataLog(net, c) <= DataLog(net', c) && DeliveredLog(net, c.src, c.dst) <= DeliveredLog(net', c.src, c.dst)
    requires d.number != 0 ==> Disposed(DeliveredLog(net', c.src, c.dst), d.number)
    ensures FateOk(net', c)
  {
    hide DataLog, Arrived, DeliveredLog;
    var before, after := DeliveredLog(net, c.src, c.dst), DeliveredLog(net', c.src, c.dst);
    forall x | x in Arrived(net', c)
      ensures 1 <= x <= |DataLog(net', c)|
      ensures DataLog(net', c)[x - 1].number != 0 ==> Disposed(after, DataLog(net', c)[x - 1].number)
    {
      if x != d.attempt && DataLog(net, c)[x - 1].number != 0 {
        assert after == before + after[|before|..];
        DisposedGrows(before, after[|before|..], DataLog(net, c)[x - 1].number);
      }
    }
  }

  // ----- what frames say -----

  /** Frame x of lane k between a pair of epochs. */
  ghost predicate IsFrame(net: Net, src: Epoch, dst: Epoch, k: PathId, x: nat) {
    x < |DataLog(net, Channel(src, dst, k))|
  }

  ghost function FrameAt(net: Net, src: Epoch, dst: Epoch, k: PathId, x: nat): Data
    requires IsFrame(net, src, dst, k, x)
  {
    DataLog(net, Channel(src, dst, k))[x]
  }

  /** All frames ever sent under one number between a pair of epochs carry the same datagram. */
  ghost predicate AgreeOk(net: Net, src: Epoch, dst: Epoch) {
    forall j, x, k, y :: IsFrame(net, src, dst, j, x) && IsFrame(net, src, dst, k, y) ==>
      SameContent(FrameAt(net, src, dst, j, x), FrameAt(net, src, dst, k, y))
  }

  ghost predicate SameContent(d: Data, f: Data) {
    d.number == f.number != 0 ==> d.payload == f.payload && d.order == f.order
  }

  lemma {:induction false} PresentAgree(net: Net, e: Epoch)
    requires NetOk(net) && e in net.nodes
    ensures AgreeOk(net, e, net.nodes[e].remote)
  {
    hide NetOk, DataLog;
    var dst := net.nodes[e].remote;
    forall j, x, k, y | IsFrame(net, e, dst, j, x) && IsFrame(net, e, dst, k, y)
      ensures SameContent(FrameAt(net, e, dst, j, x), FrameAt(net, e, dst, k, y))
    {
      KnownContent(net, e, j, x);
      KnownContent(net, e, k, y);
    }
  }

  lemma {:induction false} SameAgree(net: Net, net': Net, src: Epoch, dst: Epoch)
    requires AgreeOk(net, src, dst) && SameData(net, net', src, dst)
    ensures AgreeOk(net', src, dst)
  {
    hide DataLog;
    forall j, x, k, y | IsFrame(net', src, dst, j, x) && IsFrame(net', src, dst, k, y)
      ensures SameContent(FrameAt(net', src, dst, j, x), FrameAt(net', src, dst, k, y))
    {
      assert IsFrame(net, src, dst, j, x) && IsFrame(net, src, dst, k, y);
      assert SameContent(FrameAt(net, src, dst, j, x), FrameAt(net, src, dst, k, y));
    }
  }

  lemma {:induction false} StepAgree(net: Net, e: Epoch, op: Op, src: Epoch, dst: Epoch)
    requires NetOk(net) && NetEnabled(net, e, op) && AgreeOk(net, src, dst)
    ensures AgreeOk(NetStep(net, e, op), src, dst)
  {
    hide NetOk, DataLog, Step, Out, Enabled, Arrives, NetStep, AgreeOk;
    var t, net' := net.nodes[e], NetStep(net, e, op);
    NodeHeld(net, e);
    OutAddress(t, op);
    StepNode(net, e, op);
    if src == e && dst == net'.nodes[e].remote {
      NetStepKeeps(net, e, op);
      PresentAgree(net', e);
    } else {
      forall k ensures DataLog(net', Channel(src, dst, k)) == DataLog(net, Channel(src, dst, k)) {
        StepLogs(net, e, op, Channel(src, dst, k));
      }
      SameAgree(net, net', src, dst);
    }
  }

  /** A step that sends data stays with its remote. */
  lemma {:induction false} StepNode(net: Net, e: Epoch, op: Op)
    requires NetOk(net) && NetEnabled(net, e, op)
    ensures e in NetStep(net, e, op).nodes
    ensures Out(net.nodes[e], op).SentData? ==> NetStep(net, e, op).nodes[e].remote == net.nodes[e].remote
  {
    hide NetOk, Step, Out, Arrives, Enabled;
    var t := net.nodes[e];
    NodeHeld(net, e);
    if Out(t, op).SentData? {
      OnlySenders(t, op);
      SendEffect(t, op);
    }
  }

  // ----- whole runs -----

  ghost predicate HistoryOk(net: Net) {
    NetOk(net) && (forall c :: FateOk(net, c)) && (forall src, dst :: AgreeOk(net, src, dst))
  }

  lemma {:induction false} RunsKeepHistory(net: Net, events: seq<Event>)
    requires HistoryOk(net) && NetworkTheorems.Runs(net, events)
    ensures HistoryOk(End(net, events))
    decreases |events|
  {
    hide NetOk, NetStep, NetEnabled, AddNode, FateOk, AgreeOk;
    if events != [] {
      match events[0] {
        case Start(e) =>
          StartKeeps(net, e);
          forall c ensures FateOk(AddNode(net, e), c) { StartFate(net, e, c); }
          forall src, dst ensures AgreeOk(AddNode(net, e), src, dst) { StartAgree(net, e, src, dst); }
        case At(e, op) =>
          NetStepKeeps(net, e, op);
          forall c ensures FateOk(NetStep(net, e, op), c) { StepFate(net, e, op, c); }
          forall src, dst ensures AgreeOk(NetStep(net, e, op), src, dst) { StepAgree(net, e, op, src, dst); }
      }
      RunsKeepHistory(Next(net, events[0]), events[1..]);
    }
  }

  lemma {:induction false} StartFate(net: Net, e: Epoch, c: Channel)
    requires FateOk(net, c)
    ensures FateOk(AddNode(net, e), c)
  {
    hide DataLog, Arrived, DeliveredLog, Disposed;
    SameLogs(net, e, c);
    NoDeliveries(net, e, c.src, c.dst);
  }

  lemma {:induction false} NoDeliveries(net: Net, e: Epoch, src: Epoch, dst: Epoch)
    ensures DeliveredLog(AddNode(net, e), src, dst) == DeliveredLog(net, src, dst)
  {
  }

  lemma {:induction false} StartAgree(net: Net, e: Epoch, src: Epoch, dst: Epoch)
    requires AgreeOk(net, src, dst)
    ensures AgreeOk(AddNode(net, e), src, dst)
  {
    hide DataLog, AgreeOk;
    forall k ensures DataLog(AddNode(net, e), Channel(src, dst, k)) == DataLog(net, Channel(src, dst, k)) {
      SameLogs(net, e, Channel(src, dst, k));
    }
    SameAgree(net, AddNode(net, e), src, dst);
  }

  lemma {:induction false} HistoryHolds(events: seq<Event>)
    requires NetworkTheorems.Runs(EMPTY_NET, events)
    ensures HistoryOk(End(EMPTY_NET, events))
  {
    hide NetOk;
    EmptyOk();
    RunsKeepHistory(EMPTY_NET, events);
  }

  /**
   * An acknowledged datagram was delivered. In every run, a number acknowledged at its sender was handed on
   * by the peer in this pair of epochs, or the peer handed on one that is 8192 or more ahead of it.
   */
  lemma {:induction false} AckedIsDelivered(events: seq<Event>, e: Epoch, n: nat)
    requires NetworkTheorems.Runs(EMPTY_NET, events) && e in End(EMPTY_NET, events).nodes
    requires n in End(EMPTY_NET, events).nodes[e].acked
    ensures var net := End(EMPTY_NET, events); Disposed(DeliveredLog(net, e, net.nodes[e].remote), n)
  {
    hide NetworkTheorems.Runs, End, NetOk, DataLog, Arrived, DeliveredLog, Disposed;
    HistoryHolds(events);
    var net := End(EMPTY_NET, events);
    AckedReached(net, e, n);
    var k: PathId, x: nat :| Brings(net, Channel(e, net.nodes[e].remote, k), x, n);
    assert FateOk(net, Channel(e, net.nodes[e].remote, k));
  }

  /**
   * What is delivered is what was sent: it is the datagram of every frame its sender ever sent under that
   * number in this pair of epochs, however often and on whichever lanes, and such a frame exists.
   */
  lemma {:induction false} DeliveredIntact(events: seq<Event>, e: Epoch, op: Op)
    requires NetworkTheorems.Runs(EMPTY_NET, events) && NetEnabled(End(EMPTY_NET, events), e, op)
    requires Out(End(EMPTY_NET, events).nodes[e], op).Delivered?
    ensures var net := End(EMPTY_NET, events); var out, src := Out(net.nodes[e], op), net.nodes[e].remote;
      && (exists k, x :: IsFrame(net, src, e, k, x) && FrameAt(net, src, e, k, x).number == out.number)
      && forall k, x :: IsFrame(net, src, e, k, x) && FrameAt(net, src, e, k, x).number == out.number ==>
           FrameAt(net, src, e, k, x).payload == out.payload && FrameAt(net, src, e, k, x).order == out.order
  {
    hide NetworkTheorems.Runs, End, NetOk, DataLog, Arrived, DeliveredLog, Step, FateOk;
    hide ReceiveAck, ReceiverFor, Arrive, DataRefusal;
    HistoryHolds(events);
    var net := End(EMPTY_NET, events);
    var t := net.nodes[e];
    NodeHeld(net, e);
    OutAddress(t, op);
    ArrivalIsData(t, op);
    var d, src := op.data, t.remote;
    assert IsFrame(net, src, e, d.lane, d.attempt - 1) && FrameAt(net, src, e, d.lane, d.attempt - 1) == d;
    assert AgreeOk(net, src, e);
    forall k, x | IsFrame(net, src, e, k, x) && FrameAt(net, src, e, k, x).number == d.number
      ensures FrameAt(net, src, e, k, x).payload == d.payload && FrameAt(net, src, e, k, x).order == d.order
    {
      assert SameContent(FrameAt(net, src, e, k, x), FrameAt(net, src, e, d.lane, d.attempt - 1));
    }
  }
}
