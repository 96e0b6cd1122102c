/** A run in which equal byte totals fail to prove a prefix, and the same run on an unused lane, where they do. */
module UsedLaneRun {
  import opened Packets
  import opened ReceiptWindows
  import opened TransportState
  import opened TransportSteps
  import opened AckLaws
  import opened Network
  import opened NetworkTheorems
  import Transports = TransportRuns
  import opened UsedLanes

  const SENDER: Epoch := Epoch(1, 1)
  const FIRST_REMOTE: Epoch := Epoch(2, 1)
  const PEER: Epoch := Epoch(2, 2)

  const LEASE := PathOp(0, 0, 1)
  const PING := PingOp(0, 0, 1)
  const ADOPT_FIRST := SetRemoteOp(FIRST_REMOTE, false)
  const CHANGE := SetRemoteOp(PEER, false)
  const ADOPT_SENDER := SetRemoteOp(SENDER, false)

  /** The ping of the sender's lane to a remote, its first transmission there. */
  function PingTo(remote: Epoch): Data {
    Data(SENDER, remote, 0, 1, 0, Order(false, 0), [])
  }

  const ARRIVAL := DataOp(0, PingTo(PEER), 1)
  const ANSWER := EmitOp(0, 0, 1)

  /** The sender leases a lane to its first remote and, in the run with a used lane, pings on it. */
  function BeforeChange(used: bool): seq<Event> {
    [Start(SENDER), Start(PEER), At(SENDER, ADOPT_FIRST), At(SENDER, LEASE)]
    + if used then [At(SENDER, PING)] else []
  }

  /** After the change of remote one ping reaches the peer, which acknowledges it. */
  const AFTER_CHANGE: seq<Event> := [
    At(SENDER, LEASE), At(SENDER, PING), At(PEER, ADOPT_SENDER), At(PEER, LEASE), At(PEER, ARRIVAL), At(PEER, ANSWER)]

  // ----- the states of both transports -----

  const NEW_LANE: Lane := NewLane(0, 0, 1)

  function Pinged(l: Lane): Lane {
    BeginAttempt(l, Ping, WIRE_OVERHEAD, 1)
  }

  /** The sender's lane when it changes its remote. */
  function LaneBefore(used: bool): Lane {
    if used then Pinged(NEW_LANE) else NEW_LANE
  }

  function LaneLeased(used: bool): Lane {
    ResetLane(LaneBefore(used)).(lease := 1)
  }

  function Sender(remote: Epoch, held: set<Epoch>, lanes: seq<Lane>, time: Time): State {
    New(SENDER).(remote := remote, held := held, lanes := lanes, lastTime := time)
  }

  const ONE_HELD: set<Epoch> := {NO_EPOCH, FIRST_REMOTE}
  const BOTH_HELD: set<Epoch> := {NO_EPOCH, FIRST_REMOTE, PEER}

  const PEER_ADOPTED: State := New(PEER).(remote := SENDER, held := {NO_EPOCH, SENDER})
  const PEER_LEASED: State := PEER_ADOPTED.(lanes := [NEW_LANE], lastTime := 1)
  const RECEIVER: Receiver := Receiver(0, 0, Window(1, {1}), WIRE_OVERHEAD, 1, 1, 1, 1, 0)
  const PEER_REACHED: State := PEER_LEASED.(receivers := map[0 := RECEIVER], receiverOrder := [0])

  /** The peer's acknowledgement: all bytes sent to it up to the highest number it reports. */
  const RECEIPT: Ack := BuildAck(PEER_REACHED, RECEIVER, 1)

  lemma {:induction false} SenderAdopts()
    ensures Enabled(New(SENDER), ADOPT_FIRST) && Out(New(SENDER), ADOPT_FIRST) == Quiet
    ensures Step(New(SENDER), ADOPT_FIRST) == Sender(FIRST_REMOTE, ONE_HELD, [], 0)
  {
    assert ResetLanes([]) == [] && {NO_EPOCH} + {FIRST_REMOTE} == ONE_HELD;
  }

  lemma {:induction false} SenderLeases()
    ensures var t := Sender(FIRST_REMOTE, ONE_HELD, [], 0);
      && Enabled(t, LEASE) && Out(t, LEASE) == Quiet
      && Step(t, LEASE) == Sender(FIRST_REMOTE, ONE_HELD, [NEW_LANE], 1)
  {
    assert [] + [NEW_LANE] == [NEW_LANE];
  }

  /** A ping on the first lane, whichever remote it is for. */
  lemma {:induction false} SenderPings(remote: Epoch, held: set<Epoch>, l: Lane)
    requires l.id == 0 && l.lease == 1 && l.lastTransmit == 1 && l.counter == 0
    ensures var t := Sender(remote, held, [l], 1);
      && Enabled(t, PING) && Out(t, PING) == SentData(PingTo(remote))
      && Step(t, PING) == Sender(remote, held, [Pinged(l)], 1)
  {
    assert [l][0 := Pinged(l)] == [Pinged(l)];
  }

  lemma {:induction false} SenderChanges(used: bool)
    ensures var t := Sender(FIRST_REMOTE, ONE_HELD, [LaneBefore(used)], 1);
      && Enabled(t, CHANGE) && Out(t, CHANGE) == Quiet && !Transports.Stays(t, CHANGE)
      && Step(t, CHANGE) == Sender(PEER, BOTH_HELD, [ResetLane(LaneBefore(used))], 1)
  {
    assert ResetLanes([LaneBefore(used)]) == [ResetLane(LaneBefore(used))];
    assert ONE_HELD + {PEER} == BOTH_HELD;
  }

  lemma {:induction false} SenderLeasesAgain(used: bool)
    ensures var t := Sender(PEER, BOTH_HELD, [ResetLane(LaneBefore(used))], 1);
      && Enabled(t, LEASE) && Out(t, LEASE) == Quiet
      && Step(t, LEASE) == Sender(PEER, BOTH_HELD, [LaneLeased(used)], 1)
  {
    assert [ResetLane(LaneBefore(used))][0 := LaneLeased(used)] == [LaneLeased(used)];
  }

  lemma {:induction false} PeerAdopts()
    ensures Enabled(New(PEER), ADOPT_SENDER) && Out(New(PEER), ADOPT_SENDER) == Quiet
    ensures Step(New(PEER), ADOPT_SENDER) == PEER_ADOPTED
  {
    assert ResetLanes([]) == [] && {NO_EPOCH} + {SENDER} == {NO_EPOCH, SENDER};
  }

  lemma {:induction false} PeerLeases()
    ensures Enabled(PEER_ADOPTED, LEASE) && Out(PEER_ADOPTED, LEASE) == Quiet
    ensures Step(PEER_ADOPTED, LEASE) == PEER_LEASED
  {
    assert [] + [NEW_LANE] == [NEW_LANE];
  }

  lemma {:induction false} PeerIsReached()
    ensures Enabled(PEER_LEASED, ARRIVAL) && Out(PEER_LEASED, ARRIVAL) == Quiet
    ensures Step(PEER_LEASED, ARRIVAL) == PEER_REACHED
  {
    assert EMPTY.Mark(1) == Window(1, {1});
    assert Arrive(NewReceiver(0, 0, 1), PingTo(PEER), 1) == RECEIVER;
    assert [] + [0] == [0];
  }

  lemma {:induction false} ReceiptSays()
    ensures RECEIPT.src == PEER && RECEIPT.body.observed == SENDER && RECEIPT.lane == 0 && RECEIPT.revision == 1
    ensures var a := RECEIPT.body;
      a.high == 1 && a.bytes == WIRE_OVERHEAD && a.elapsed == 0 && a.receivedHigh == 0 && a.Reports(1)
  {
    assert MarkedBelow(RECEIVER.receipts, 1, 0);
    assert 0 in LowWord(RECEIVER.receipts);
  }

  lemma {:induction false} PeerAnswers()
    ensures Enabled(PEER_REACHED, ANSWER) && Out(PEER_REACHED, ANSWER) == SentAck(RECEIPT)
  {
  }

  // ----- the network -----

  type Frames = map<Channel, seq<Data>>

  const TO_PEER: Channel := Channel(SENDER, PEER, 0)
  const REACHED: map<Channel, set<nat>> := map[TO_PEER := {1}]
  const ANSWERED: map<Channel, seq<Ack>> := map[Channel(PEER, SENDER, 0) := [RECEIPT]]

  function Between(
    e: State, g: State, data: Frames, acks: map<Channel, seq<Ack>>, arrived: map<Channel, set<nat>>): Net
  {
    Net(map[SENDER := e, PEER := g], data, acks, arrived, map[])
  }

  /** The frames sent before the change. */
  function FramesBefore(used: bool): Frames {
    if used then map[Channel(SENDER, FIRST_REMOTE, 0) := [PingTo(FIRST_REMOTE)]] else map[]
  }

  function FramesAfter(used: bool): Frames {
    FramesBefore(used)[TO_PEER := [PingTo(PEER)]]
  }

  /** A call of one of the transports that sends nothing. */
  predicate Plain(op: Op) {
    op.PathOp? || (op.SetRemoteOp? && !op.adopted)
  }

  lemma {:induction false} SenderMoves(e: State, g: State, data: Frames, op: Op)
    requires Plain(op) && Enabled(e, op) && Out(e, op) == Quiet
    ensures var net := Between(e, g, data, map[], map[]);
      NetEnabled(net, SENDER, op) && NetStep(net, SENDER, op) == Between(Step(e, op), g, data, map[], map[])
  {
    hide Step, Out, Enabled;
    var nodes: map<Epoch, State> := map[SENDER := e, PEER := g];
    assert nodes[SENDER := Step(e, op)] == map[SENDER := Step(e, op), PEER := g];
  }

  lemma {:induction false} SenderSends(e: State, g: State, data: Frames, c: Channel, d: Data)
    requires Enabled(e, PING) && Out(e, PING) == SentData(d) && c == Channel(d.src, d.dst, d.lane) && c !in data
    ensures var net := Between(e, g, data, map[], map[]);
      && NetEnabled(net, SENDER, PING)
      && NetStep(net, SENDER, PING) == Between(Step(e, PING), g, data[c := [d]], map[], map[])
  {
    hide Step, Out, Enabled;
    var nodes: map<Epoch, State> := map[SENDER := e, PEER := g];
    assert nodes[SENDER := Step(e, PING)] == map[SENDER := Step(e, PING), PEER := g];
    assert [] + [d] == [d];
  }

  lemma {:induction false} PeerMoves(e: State, g: State, data: Frames, op: Op)
    requires Plain(op) && Enabled(g, op) && Out(g, op) == Quiet
    ensures var net := Between(e, g, data, map[], map[]);
      NetEnabled(net, PEER, op) && NetStep(net, PEER, op) == Between(e, Step(g, op), data, map[], map[])
  {
    hide Step, Out, Enabled;
    var nodes: map<Epoch, State> := map[SENDER := e, PEER := g];
    assert nodes[PEER := Step(g, op)] == map[SENDER := e, PEER := Step(g, op)];
  }

  lemma {:induction false} PingArrives(e: State, used: bool)
    ensures var net := Between(e, PEER_LEASED, FramesAfter(used), map[], map[]);
      && NetEnabled(net, PEER, ARRIVAL)
      && NetStep(net, PEER, ARRIVAL) == Between(e, PEER_REACHED, FramesAfter(used), map[], REACHED)
  {
    hide Step, Out, Enabled, New, Arrives;
    PeerIsReached();
    PingIsNew();
    var nodes: map<Epoch, State> := map[SENDER := e, PEER := PEER_LEASED];
    assert nodes[PEER := PEER_REACHED] == map[SENDER := e, PEER := PEER_REACHED];
    var none: map<Channel, set<nat>> := map[];
    var nothing: set<nat> := {};
    assert nothing + {1} == {1};
    assert none[TO_PEER := {} + {1}] == REACHED;
  }

  lemma {:induction false} PingIsNew()
    ensures Arrives(PEER_LEASED, ARRIVAL)
  {
  }

  lemma {:induction false} PeerReports(e: State, data: Frames)
    ensures var net := Between(e, PEER_REACHED, data, map[], REACHED);
      && Enabled(PEER_REACHED, ANSWER) && NetEnabled(net, PEER, ANSWER)
      && NetStep(net, PEER, ANSWER) == Between(e, Step(PEER_REACHED, ANSWER), data, ANSWERED, REACHED)
  {
    hide Step, Out, Enabled, New, BuildAck;
    PeerAnswers();
    ReceiptSays();
    var nodes: map<Epoch, State> := map[SENDER := e, PEER := PEER_REACHED];
    var g := Step(PEER_REACHED, ANSWER);
    assert nodes[PEER := g] == map[SENDER := e, PEER := g];
    var none: map<Channel, seq<Ack>> := map[];
    assert [] + [RECEIPT] == [RECEIPT];
    assert none[Channel(PEER, SENDER, 0) := [] + [RECEIPT]] == ANSWERED;
  }

  // ----- the run -----

  lemma {:induction false} First(net: Net, v: Event, rest: seq<Event>, next: Net)
    requires Happens(net, v) && Next(net, v) == next && NetworkTheorems.Runs(next, rest)
    ensures NetworkTheorems.Runs(net, [v] + rest) && End(net, [v] + rest) == End(next, rest)
  {
    hide Happens, Next;
    var events := [v] + rest;
    assert events[0] == v && events[1..] == rest;
  }

  /** The sender at the change, and what follows the change. */
  function AtChange(used: bool): Net {
    Between(Sender(FIRST_REMOTE, ONE_HELD, [LaneBefore(used)], 1), New(PEER), FramesBefore(used), map[], map[])
  }

  function Changed(used: bool): Net {
    Between(
      Sender(PEER, BOTH_HELD, [ResetLane(LaneBefore(used))], 1), New(PEER), FramesBefore(used), map[], map[])
  }

  /** The sender when the acknowledgement reaches it. */
  function AtReceipt(used: bool): State {
    Sender(PEER, BOTH_HELD, [Pinged(LaneLeased(used))], 1)
  }

  lemma {:induction false} BothStart()
    ensures var net := Between(New(SENDER), New(PEER), map[], map[], map[]);
      && Happens(EMPTY_NET, Start(SENDER)) && Happens(Next(EMPTY_NET, Start(SENDER)), Start(PEER))
      && Next(Next(EMPTY_NET, Start(SENDER)), Start(PEER)) == net
  {
    hide New;
    var one: map<Epoch, State> := map[SENDER := New(SENDER)];
    assert one[PEER := New(PEER)] == map[SENDER := New(SENDER), PEER := New(PEER)];
  }

  lemma {:induction false} RunsToChange(used: bool)
    ensures NetworkTheorems.Runs(EMPTY_NET, BeforeChange(used)) && End(EMPTY_NET, BeforeChange(used)) == AtChange(used)
  {
    hide Step, Out, Enabled, New, Sender, NetStep, NetEnabled, Between;
    BothStart();
    SenderAdopts();
    SenderMoves(New(SENDER), New(PEER), map[], ADOPT_FIRST);
    SenderLeases();
    var e1 := Sender(FIRST_REMOTE, ONE_HELD, [], 0);
    SenderMoves(e1, New(PEER), map[], LEASE);
    var e2 := Sender(FIRST_REMOTE, ONE_HELD, [NEW_LANE], 1);
    var net2 := Between(e2, New(PEER), map[], map[], map[]);
    var tail: seq<Event> := if used then [At(SENDER, PING)] else [];
    if used {
      SenderPings(FIRST_REMOTE, ONE_HELD, NEW_LANE);
      SenderSends(e2, New(PEER), map[], Channel(SENDER, FIRST_REMOTE, 0), PingTo(FIRST_REMOTE));
      First(net2, At(SENDER, PING), [], AtChange(used));
      assert [At(SENDER, PING)] + [] == tail;
    }
    assert NetworkTheorems.Runs(net2, tail) && End(net2, tail) == AtChange(used);
    var net1 := Between(e1, New(PEER), map[], map[], map[]);
    First(net1, At(SENDER, LEASE), tail, net2);
    var net0 := Between(New(SENDER), New(PEER), map[], map[], map[]);
    First(net0, At(SENDER, ADOPT_FIRST), [At(SENDER, LEASE)] + tail, net1);
    var started := Next(EMPTY_NET, Start(SENDER));
    First(started, Start(PEER), [At(SENDER, ADOPT_FIRST)] + ([At(SENDER, LEASE)] + tail), net0);
    var rest := [Start(PEER)] + ([At(SENDER, ADOPT_FIRST)] + ([At(SENDER, LEASE)] + tail));
    First(EMPTY_NET, Start(SENDER), rest, started);
    assert [Start(SENDER)] + rest == BeforeChange(used);
  }

  lemma {:induction false} ChangeHappens(used: bool)
    ensures NetEnabled(AtChange(used), SENDER, CHANGE) && NetStep(AtChange(used), SENDER, CHANGE) == Changed(used)
    ensures !Transports.Stays(AtChange(used).nodes[SENDER], CHANGE)
  {
    hide Step, Out, Enabled, New, Sender, NetStep, NetEnabled, Transports.Stays;
    SenderChanges(used);
    SenderMoves(Sender(FIRST_REMOTE, ONE_HELD, [LaneBefore(used)], 1), New(PEER), FramesBefore(used), CHANGE);
  }

  /** What the peer does after the change. */
  const PEER_EVENTS: seq<Event> := [At(PEER, ADOPT_SENDER), At(PEER, LEASE), At(PEER, ARRIVAL), At(PEER, ANSWER)]

  lemma {:induction false} PeerRuns(used: bool)
    ensures Enabled(PEER_REACHED, ANSWER)
    ensures var net := Between(AtReceipt(used), New(PEER), FramesAfter(used), map[], map[]);
      && NetworkTheorems.Runs(net, PEER_EVENTS)
      && End(net, PEER_EVENTS) ==
         Between(AtReceipt(used), Step(PEER_REACHED, ANSWER), FramesAfter(used), ANSWERED, REACHED)
  {
    hide Step, Out, Enabled, New, Sender, NetStep, NetEnabled, Between, BuildAck, FramesAfter, AtReceipt;
    var e, data := AtReceipt(used), FramesAfter(used);
    PeerReports(e, data);
    var net3 := Between(e, PEER_REACHED, data, map[], REACHED);
    First(net3, At(PEER, ANSWER), [], NetStep(net3, PEER, ANSWER));
    PingArrives(e, used);
    var net2 := Between(e, PEER_LEASED, data, map[], map[]);
    First(net2, At(PEER, ARRIVAL), [At(PEER, ANSWER)] + [], net3);
    PeerLeases();
    PeerMoves(e, PEER_ADOPTED, data, LEASE);
    var net1 := Between(e, PEER_ADOPTED, data, map[], map[]);
    First(net1, At(PEER, LEASE), [At(PEER, ARRIVAL)] + ([At(PEER, ANSWER)] + []), net2);
    PeerAdopts();
    PeerMoves(e, New(PEER), data, ADOPT_SENDER);
    var net0 := Between(e, New(PEER), data, map[], map[]);
    var last := [At(PEER, LEASE)] + ([At(PEER, ARRIVAL)] + ([At(PEER, ANSWER)] + []));
    First(net0, At(PEER, ADOPT_SENDER), last, net1);
    assert [At(PEER, ADOPT_SENDER)] + last == PEER_EVENTS;
  }

  lemma {:induction false} RunsToReceipt(used: bool)
    ensures Enabled(PEER_REACHED, ANSWER)
    ensures NetworkTheorems.Runs(Changed(used), AFTER_CHANGE)
    ensures End(Changed(used), AFTER_CHANGE) ==
      Between(AtReceipt(used), Step(PEER_REACHED, ANSWER), FramesAfter(used), ANSWERED, REACHED)
  {
    hide Step, Out, Enabled, New, Sender, NetStep, NetEnabled, Between, BuildAck, NetworkTheorems.Runs, End;
    hide ResetLane, LaneBefore, LaneLeased, Pinged, FramesBefore;
    var e, data := Sender(PEER, BOTH_HELD, [LaneLeased(used)], 1), FramesBefore(used);
    LeasedLane(used);
    PeerRuns(used);
    SenderPings(PEER, BOTH_HELD, LaneLeased(used));
    SenderSends(e, New(PEER), data, TO_PEER, PingTo(PEER));
    var net1 := Between(e, New(PEER), data, map[], map[]);
    First(net1, At(SENDER, PING), PEER_EVENTS, NetStep(net1, SENDER, PING));
    SenderLeasesAgain(used);
    SenderMoves(Sender(PEER, BOTH_HELD, [ResetLane(LaneBefore(used))], 1), New(PEER), data, LEASE);
    First(Changed(used), At(SENDER, LEASE), [At(SENDER, PING)] + PEER_EVENTS, net1);
    assert [At(SENDER, LEASE)] + ([At(SENDER, PING)] + PEER_EVENTS) == AFTER_CHANGE;
  }

  lemma {:induction false} LeasedLane(used: bool)
    ensures var l := LaneLeased(used); l.id == 0 && l.lease == 1 && l.lastTransmit == 1 && l.counter == 0
    ensures TO_PEER !in FramesBefore(used)
    ensures Waiting(Pinged(LaneLeased(used)), if used then 2 * WIRE_OVERHEAD else WIRE_OVERHEAD)
  {
    hide Waiting, Pinged;
    BytesBefore(used);
    PingWaits(LaneBefore(used));
  }

  lemma {:induction false} BytesBefore(used: bool)
    ensures var l := LaneBefore(used);
      l.id == 0 && l.lastTransmit == 1 && l.sent == (if used then WIRE_OVERHEAD else 0)
  {
  }

  /** A lane that was reset and leased again keeps the bytes it has sent. */
  lemma {:induction false} PingWaits(l: Lane)
    requires l.id == 0 && l.lastTransmit == 1
    ensures Waiting(Pinged(ResetLane(l).(lease := 1)), l.sent + WIRE_OVERHEAD)
  {
  }

  /** A lane that waits for the acknowledgement of its first ping, having sent so many bytes in all. */
  predicate Waiting(l: Lane, through: nat) {
    && l.id == 0 && l.lease == 1 && l.counter == 1 && l.ackRevision == 0 && l.ackReceipts == EMPTY
    && l.ackedBytes == 0 && l.ackedElapsed == 0 && l.receivedHigh == 0
    && 1 in l.attempts && l.attempts[1].through == through
  }

  /** The acknowledgement is accepted as the newest, and proves exactly if the lane had sent nothing before. */
  lemma {:induction false} ReceiptJudged(l: Lane, through: nat)
    requires Waiting(l, through) && through > 0
    ensures AckRefusal(Sender(PEER, BOTH_HELD, [l], 1), 0, RECEIPT, 1).None?
    ensures FedBy(l, RECEIPT).receivedThrough == through
    ensures Proves(FedBy(l, RECEIPT), RECEIPT.body) <==> through == WIRE_OVERHEAD
  {
    hide BuildAck;
    ReceiptSays();
  }

  /**
   * Byte totals fail on a used lane. In one run the sender pings on a lane, changes its remote and pings
   * again; the peer's acknowledgement of that ping is accepted as the newest and reports every byte sent to
   * it, yet proves nothing, since the lane still counts the first ping. In the same run without the first
   * ping it proves the prefix.
   */
  lemma {:induction false} UsedLaneCannotProve(used: bool)
    ensures NetworkTheorems.Runs(EMPTY_NET, BeforeChange(used))
    ensures var net := End(EMPTY_NET, BeforeChange(used));
      && NetEnabled(net, SENDER, CHANGE) && !Transports.Stays(net.nodes[SENDER], CHANGE)
      && (LaneBytes(net.nodes[SENDER].lanes, 0) > 0 <==> used)
      && NetworkTheorems.Runs(NetStep(net, SENDER, CHANGE), AFTER_CHANGE)
    ensures var net := End(NetStep(End(EMPTY_NET, BeforeChange(used)), SENDER, CHANGE), AFTER_CHANGE);
      && SENDER in net.nodes && AckWasSent(net, RECEIPT)
      && var t, log := net.nodes[SENDER], DataLog(net, TO_PEER);
         && AckRefusal(t, RECEIPT.lane, RECEIPT, 1).None? && Find(t.lanes, RECEIPT.lane) == 0
         && RECEIPT.revision > t.lanes[0].ackRevision
         && RECEIPT.body.high == |log| && RECEIPT.body.bytes == Total(log, |log|)
         && FedBy(t.lanes[0], RECEIPT).receivedThrough > 0
         && (Proves(FedBy(t.lanes[0], RECEIPT), RECEIPT.body) <==> !used)
  {
    hide Step, Out, Enabled, New, NetStep, NetEnabled, NetworkTheorems.Runs, End, Transports.Stays, AckRefusal, FedBy,
         Proves, BuildAck, LaneLeased, Pinged;
    RunsToChange(used);
    ChangeHappens(used);
    RunsToReceipt(used);
    LeasedLane(used);
    ReceiptSays();
    ReceiptJudged(Pinged(LaneLeased(used)), if used then 2 * WIRE_OVERHEAD else WIRE_OVERHEAD);
    SenderLane(used);
    ReceiptSent(AtReceipt(used), Step(PEER_REACHED, ANSWER), used);
  }

  lemma {:induction false} SenderLane(used: bool)
    ensures LaneBytes(AtChange(used).nodes[SENDER].lanes, 0) > 0 <==> used
  {
  }

  lemma {:induction false} ReceiptSent(e: State, g: State, used: bool)
    ensures var net := Between(e, g, FramesAfter(used), ANSWERED, REACHED);
      && AckWasSent(net, RECEIPT) && |DataLog(net, TO_PEER)| == 1 && Total(DataLog(net, TO_PEER), 1) == WIRE_OVERHEAD
  {
    hide BuildAck;
    ReceiptSays();
  }
}
