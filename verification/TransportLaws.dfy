/** What every step of a transport keeps: byte and datagram conservation, admission bounds, bounded repair. */
module TransportLaws {
  import Basics
  import opened Packets
  import opened ReceiptWindows
  import FairQueues
  import opened TransportState
  import opened TransportSteps
  import opened LaneLaws

  // ----- the invariant, in parts -----

  ghost predicate LanesOk(lanes: seq<Lane>) {
    && (forall i :: 0 <= i < |lanes| ==> Balanced(lanes[i]) && lanes[i].receivedHigh <= lanes[i].counter)
    && (forall i, j :: 0 <= i < j < |lanes| ==> lanes[i].id != lanes[j].id)
  }

  ghost predicate Holds(l: Lane, packets: map<nat, Packet>) {
    forall s :: s in l.attempts && l.attempts[s].carried.Datagram? ==>
      l.attempts[s].carried.number in packets
        && packets[l.attempts[s].carried.number].class_ == l.attempts[s].carried.class_
  }

  /** Every transmission a lane remembers carried a known datagram. */
  ghost predicate CarriesKnown(lanes: seq<Lane>, packets: map<nat, Packet>) {
    forall i :: 0 <= i < |lanes| ==> Holds(lanes[i], packets)
  }

  /** A transmitted datagram: numbered, transmitted at least once and at most four times. */
  ghost predicate TransmittedOk(p: Packet) {
    && 1 <= p.attempts <= 4
    && 1 <= |p.payload| <= MAX_DATAGRAM
    && p.order.index > 0 && p.order.interactive == (p.class_ != Bulk)
    && p.lastSent <= p.repairDeadline
  }

  ghost predicate PacketsOk(packets: map<nat, Packet>, counter: nat) {
    && (forall n :: n in packets <==> 1 <= n <= counter)
    && (forall n :: n in packets ==> packets[n].number == n && TransmittedOk(packets[n]))
  }

  /** pending is exactly the datagrams of pendingOrder that are not acknowledged. */
  ghost predicate PendingOk(pending: set<nat>, order: seq<nat>, acked: set<nat>, known: set<nat>) {
    && Basics.Distinct(order)
    && (forall n :: n in order ==> n in known)
    && acked <= known
    && (forall n :: n in pending <==> n in order && n !in acked)
  }

  /** A datagram that waits in a queue. */
  ghost predicate WaitingOk(p: Packet, c: Class) {
    && p.number == 0 && p.attempts == 0 && p.class_ == c
    && 1 <= |p.payload| <= MAX_DATAGRAM
    && (c != Bulk ==> p.queueDeadline == p.created + MAX_QUEUE_AGE)
  }

  ghost predicate RotationOk(q: FairQueues.Rotation, c: Class) {
    && FairQueues.Valid(q)
    && forall i, p :: 0 <= i < |q| && p in q[i].packets ==> WaitingOk(p, c)
  }

  ghost predicate QueuesOk(realtime: FairQueues.Rotation, small: FairQueues.Rotation, bulk: seq<Packet>) {
    && RotationOk(realtime, Realtime) && RotationOk(small, Small)
    && forall p :: p in bulk ==> WaitingOk(p, Bulk)
  }

  function BulkAmong(pending: set<nat>, packets: map<nat, Packet>): set<nat> {
    set n | n in pending && n in packets && packets[n].class_ == Bulk
  }

  /** No datagram is lost or counted twice on its way through the transport. */
  ghost predicate Conserved(t: State) {
    && t.offered == t.drops + t.coalesced + Queued(t) + t.originals
    && t.originals == t.confirmed + t.expired + |t.pending|
  }

  ghost predicate Admitted(t: State) {
    && Queued(t) + |t.pending| <= MAX_PACKETS
    && |t.bulk| + |BulkAmong(t.pending, t.packets)| <= MAX_PACKETS - SMALL_PACKET_HEADROOM
  }

  ghost predicate ReceiptsOk(received: Window, unreported: Window) {
    && received.Valid() && unreported.Valid()
    && unreported.high == received.high
    && unreported.marks <= received.marks
    && 0 !in received.marks
  }

  ghost predicate ReceiverOk(r: Receiver, lane: PathId, lastTime: Time) {
    r.remoteLane == lane && r.receipts.Valid() && r.start <= r.highAt <= lastTime
  }

  ghost predicate ReceiversOk(receivers: map<PathId, Receiver>, lastTime: Time) {
    forall lane :: lane in receivers ==> ReceiverOk(receivers[lane], lane, lastTime)
  }

  ghost predicate Inv(t: State) {
    && LanesOk(t.lanes)
    && CarriesKnown(t.lanes, t.packets)
    && PacketsOk(t.packets, t.counter)
    && PendingOk(t.pending, t.pendingOrder, t.acked, t.packets.Keys)
    && QueuesOk(t.realtime, t.small, t.bulk)
    && Conserved(t) && Admitted(t)
    && ReceiptsOk(t.received, t.unreported)
    && ReceiversOk(t.receivers, t.lastTime)
  }

  lemma {:induction false} Initially(epoch: Epoch)
    ensures Inv(New(epoch))
  {
  }

  // ----- lanes -----

  lemma {:induction false} ReplaceLane(lanes: seq<Lane>, packets: map<nat, Packet>, i: nat, l: Lane)
    requires LanesOk(lanes) && CarriesKnown(lanes, packets) && i < |lanes|
    requires Balanced(l) && l.receivedHigh <= l.counter && l.id == lanes[i].id && Holds(l, packets)
    ensures LanesOk(lanes[i := l]) && CarriesKnown(lanes[i := l], packets)
  {
    hide Balanced, Holds;
  }

  // ----- confirming datagrams -----

  lemma {:induction false} SplitCount(a: set<nat>, b: set<nat>)
    ensures |a - b| + |a * b| == |a|
  {
    assert a == (a - b) + (a * b);
  }

  lemma {:induction false} SubsetCount(a: set<nat>, b: set<nat>)
    requires a <= b
    ensures |a| <= |b|
  {
    SplitCount(b, a);
    assert b * a == a;
  }

  lemma {:induction false} BulkShrinks(pending: set<nat>, gone: set<nat>, packets: map<nat, Packet>)
    ensures |BulkAmong(pending - gone, packets)| <= |BulkAmong(pending, packets)|
  {
    SubsetCount(BulkAmong(pending - gone, packets), BulkAmong(pending, packets));
  }

  lemma {:induction false} PendingShrinks(
    pending: set<nat>, order: seq<nat>, acked: set<nat>, known: set<nat>, numbers: set<nat>)
    requires PendingOk(pending, order, acked, known) && numbers <= known
    ensures PendingOk(pending - numbers, order, acked + numbers, known)
  {
  }

  lemma {:induction false} ConfirmKeeps(t: State, numbers: set<nat>)
    requires Inv(t) && numbers <= t.packets.Keys
    ensures Inv(Confirm(t, numbers))
  {
    hide LanesOk, CarriesKnown, PacketsOk, PendingOk, QueuesOk, ReceiptsOk, ReceiversOk, BulkAmong;
    SplitCount(t.pending, numbers);
    BulkShrinks(t.pending, numbers, t.packets);
    PendingShrinks(t.pending, t.pendingOrder, t.acked, t.packets.Keys, numbers);
  }

  lemma {:induction false} NumbersKnown(l: Lane, packets: map<nat, Packet>, keys: set<nat>)
    requires Holds(l, packets)
    ensures Numbers(l.attempts, keys) <= packets.Keys
  {
  }

  // ----- receiving acknowledgements -----

  /** Lane l without the transmissions in keys, those in counted added to its acknowledged bytes. */
  function Dropped(l: Lane, keys: set<nat>, counted: set<nat>): Lane {
    Remove(l, keys).(acked := l.acked + Sum(Only(l.attempts, counted), Outstanding, l.counter))
  }

  lemma {:induction false} DroppedLane(l: Lane, keys: set<nat>, counted: set<nat>, packets: map<nat, Packet>)
    requires Balanced(l) && Holds(l, packets) && counted <= keys
    ensures var d := Dropped(l, keys, counted);
      Balanced(d) && Holds(d, packets) && d.id == l.id && d.counter == l.counter && d.receivedHigh == l.receivedHigh
    ensures Numbers(l.attempts, counted) <= packets.Keys
  {
    RemoveKeeps(l, keys, counted);
    NumbersKnown(l, packets, counted);
  }

  lemma {:induction false} DropKeeps(t: State, i: nat, keys: set<nat>, counted: set<nat>)
    requires Inv(t) && i < |t.lanes| && counted <= keys
    ensures Inv(Confirm(t, Numbers(t.lanes[i].attempts, counted)).(
                lanes := t.lanes[i := Dropped(t.lanes[i], keys, counted)]))
  {
    hide Balanced, Holds, PacketsOk, PendingOk, QueuesOk, ReceiptsOk, ReceiversOk, Dropped, Numbers, Conserved,
         Admitted;
    var l := t.lanes[i];
    DroppedLane(l, keys, counted, t.packets);
    ReplaceLane(t.lanes, t.packets, i, Dropped(l, keys, counted));
    LanesOnly(t, t.lanes[i := Dropped(l, keys, counted)]);
    ConfirmKeeps(t.(lanes := t.lanes[i := Dropped(l, keys, counted)]), Numbers(l.attempts, counted));
  }

  lemma {:induction false} ReportedKeeps(t: State, i: nat, a: Acknowledgement, late: set<nat>)
    requires Inv(t) && i < |t.lanes|
    ensures Inv(ConfirmReported(t, i, a, late))
  {
    hide Inv;
    DropKeeps(t, i, Reported(t.lanes[i], a) + late, Reported(t.lanes[i], a));
  }

  lemma {:induction false} LanesOnly(t: State, lanes: seq<Lane>)
    requires Inv(t) && LanesOk(lanes) && CarriesKnown(lanes, t.packets)
    ensures Inv(t.(lanes := lanes))
  {
    hide LanesOk, CarriesKnown, PacketsOk, PendingOk, QueuesOk, ReceiptsOk, ReceiversOk;
  }

  lemma {:induction false} PrefixKeeps(t: State, i: nat, a: Acknowledgement)
    requires Inv(t) && i < |t.lanes|
    ensures Inv(ConfirmPrefix(t, i, a))
  {
    hide Inv;
    DropKeeps(t, i, Prefix(t.lanes[i], a.high), Prefix(t.lanes[i], a.high));
  }

  lemma {:induction false} SettleLaneKeeps(l: Lane, a: Acknowledgement, acked: set<nat>, packets: map<nat, Packet>)
    requires Balanced(l) && Holds(l, packets)
    ensures Balanced(Settle(l, a, acked)) && Holds(Settle(l, a, acked), packets)
    ensures Settle(l, a, acked).id == l.id && Settle(l, a, acked).counter == l.counter
    ensures Settle(l, a, acked).receivedHigh == l.receivedHigh
  {
    SettleKeeps(l, a, acked);
  }

  lemma {:induction false} SettleAllKeeps(t: State, a: Acknowledgement)
    requires Inv(t)
    ensures Inv(SettleAll(t, a))
  {
    var lanes := SettleLanes(t.lanes, a, t.acked);
    forall i | 0 <= i < |lanes|
      ensures Balanced(lanes[i]) && Holds(lanes[i], t.packets)
      ensures lanes[i].id == t.lanes[i].id && lanes[i].receivedHigh <= lanes[i].counter
    {
      SettleLaneKeeps(t.lanes[i], a, t.acked, t.packets);
    }
    LanesOnly(t, lanes);
    ConfirmKeeps(t.(lanes := lanes), SettledNumbers(t.lanes, a, t.acked));
  }

  lemma {:induction false} LaneFieldsKeep(t: State, i: nat, l: Lane)
    requires Inv(t) && i < |t.lanes|
    requires l == t.lanes[i].(receivedHigh := l.receivedHigh, receivedThrough := l.receivedThrough,
                              ackReceipts := l.ackReceipts, ackRevision := l.ackRevision,
                              ackedBytes := l.ackedBytes, ackedElapsed := l.ackedElapsed,
                              lease := l.lease)
    requires l.receivedHigh <= l.counter
    ensures Inv(t.(lanes := t.lanes[i := l]))
  {
    assert Balanced(t.lanes[i]) && Holds(t.lanes[i], t.packets);
    ReplaceLane(t.lanes, t.packets, i, l);
    LanesOnly(t, t.lanes[i := l]);
  }

  lemma {:induction false} LaneHighKeeps(t: State, i: nat, a: Acknowledgement)
    requires Inv(t) && i < |t.lanes| && a.high <= t.lanes[i].counter
    ensures Inv(t.(lanes := t.lanes[i := NoteHigh(t.lanes[i], a)]))
  {
    hide Inv;
    InvLane(t, i);
    LaneFieldsKeep(t, i, NoteHigh(t.lanes[i], a));
  }

  lemma {:induction false} RecordKeeps(t: State, i: nat, l: Lane)
    requires Inv(t) && i < |t.lanes|
    requires l == t.lanes[i].(ackReceipts := l.ackReceipts, ackRevision := l.ackRevision)
    ensures Inv(t.(lanes := t.lanes[i := l]))
  {
    hide Inv;
    InvLane(t, i);
    LaneFieldsKeep(t, i, l);
  }

  lemma {:induction false} ReceiptsKeep(t: State, a: Acknowledgement)
    requires Inv(t)
    ensures Inv(Confirm(t, set n | n in t.pending && a.Received(n)))
  {
    hide Inv, Confirm;
    PendingKnown(t);
    ConfirmKeeps(t, set n | n in t.pending && a.Received(n));
  }

  lemma {:induction false} ThroughKeeps(t: State, i: nat, a: Acknowledgement, through: nat)
    requires Inv(t) && i < |t.lanes|
    ensures Inv(t.(lanes := t.lanes[i := NoteThrough(t.lanes[i], a, through)]))
  {
    hide Inv;
    InvLane(t, i);
    LaneFieldsKeep(t, i, NoteThrough(t.lanes[i], a, through));
  }

  lemma {:induction false} ApplyAckKeeps(t: State, i: nat, a: Acknowledgement, fresh_: bool, late: set<nat>)
    requires Inv(t) && i < |t.lanes| && a.high <= t.lanes[i].counter
    ensures Inv(ApplyAck(t, i, a, fresh_, late))
  {
    hide Inv, Confirm, ConfirmReported, ConfirmPrefix, SettleAll, NoteHigh, NoteThrough, MatchedThrough;
    var t1 := t.(lanes := t.lanes[i := NoteHigh(t.lanes[i], a)]);
    LaneHighKeeps(t, i, a);
    ReceiptsKeep(t1, a);
    var t2 := Confirm(t1, set n | n in t1.pending && a.Received(n));
    ReportedKeeps(t2, i, a, late);
    var t3 := ConfirmReported(t2, i, a, late);
    var through := MatchedThrough(t2.lanes[i], a, fresh_);
    ThroughKeeps(t3, i, a, through);
    var u3 := t3.(lanes := t3.lanes[i := NoteThrough(t3.lanes[i], a, through)]);
    PrefixKeeps(u3, i, a);
    var t4 := if fresh_ then ConfirmPrefix(u3, i, a) else t3;
    SettleAllKeeps(t4, a);
    var t5 := SettleAll(t4, a);
    InvLane(t5, i);
    LaneFieldsKeep(t5, i, t5.lanes[i].(ackedBytes := a.bytes, ackedElapsed := a.elapsed));
  }

  lemma {:induction false} InvLane(t: State, i: nat)
    requires Inv(t) && i < |t.lanes|
    ensures t.lanes[i].receivedHigh <= t.lanes[i].counter
  {
  }

  lemma {:induction false} PendingKnown(t: State)
    requires Inv(t)
    ensures t.pending <= t.packets.Keys
  {
  }

  // ----- transmitting -----

  lemma {:induction false} BeginLane(l: Lane, carried: Carried, bytes: nat, now: Time, packets: map<nat, Packet>)
    requires Balanced(l) && Holds(l, packets) && l.receivedHigh <= l.counter
    requires carried.Datagram? ==> carried.number in packets && packets[carried.number].class_ == carried.class_
    ensures var b := BeginAttempt(l, carried, bytes, now);
      Balanced(b) && Holds(b, packets) && b.id == l.id && b.receivedHigh <= b.counter
  {
    BeginKeeps(l, carried, bytes, now);
  }

  /** Changing a datagram without changing its class keeps what the lanes carry. */
  lemma {:induction false} SameClasses(lanes: seq<Lane>, packets: map<nat, Packet>, n: nat, p: Packet)
    requires CarriesKnown(lanes, packets)
    requires n in packets ==> p.class_ == packets[n].class_
    ensures CarriesKnown(lanes, packets[n := p])
  {
    forall i | 0 <= i < |lanes| ensures Holds(lanes[i], packets[n := p]) {
      assert Holds(lanes[i], packets);
    }
  }

  /** Lane i after it transmits datagram n. */
  function Charged(t: State, n: nat, i: nat, now: Time): Lane
    requires n in t.packets && i < |t.lanes|
  {
    Transmit(t, n, i, now).lanes[i]
  }

  lemma {:induction false} ChargedLanes(t: State, n: nat, i: nat, now: Time)
    requires LanesOk(t.lanes) && CarriesKnown(t.lanes, t.packets) && n in t.packets && i < |t.lanes|
    ensures var r := Transmit(t, n, i, now);
      LanesOk(r.lanes) && CarriesKnown(r.lanes, r.packets)
  {
    var p, l := t.packets[n], t.lanes[i];
    var l' := BeginAttempt(l, Datagram(n, p.class_), WireBytes(p.payload), now);
    assert Balanced(l) && Holds(l, t.packets);
    BeginLane(l, Datagram(n, p.class_), WireBytes(p.payload), now, t.packets);
    ReplaceLane(t.lanes, t.packets, i, Charged(t, n, i, now));
    SameClasses(t.lanes[i := Charged(t, n, i, now)], t.packets, n, Transmit(t, n, i, now).packets[n]);
  }

  lemma {:induction false} SameBulk(pending: set<nat>, packets: map<nat, Packet>, n: nat, p: Packet)
    requires n in packets && p.class_ == packets[n].class_
    ensures BulkAmong(pending, packets[n := p]) == BulkAmong(pending, packets)
  {
  }

  lemma {:induction false} RetransmitKeeps(t: State, n: nat, i: nat, now: Time)
    requires Inv(t) && i < |t.lanes|
    requires n in t.pendingOrder && n in t.packets && n !in t.acked
    requires t.packets[n].attempts < 4 && now <= t.packets[n].repairDeadline
    ensures Inv(Transmit(t, n, i, now))
  {
    hide LanesOk, CarriesKnown, QueuesOk, ReceiptsOk, ReceiversOk, BulkAmong;
    var r := Transmit(t, n, i, now);
    ChargedLanes(t, n, i, now);
    assert n in t.pending && r.pending == t.pending;
    SameBulk(t.pending, t.packets, n, r.packets[n]);
    assert r.packets.Keys == t.packets.Keys;
  }

  // ----- queues -----

  lemma {:induction false} PopRotation(q: FairQueues.Rotation, c: Class)
    requires RotationOk(q, c) && q != []
    ensures RotationOk(FairQueues.Pop(q), c)
    ensures WaitingOk(FairQueues.Head(q), c)
    ensures FairQueues.Count(FairQueues.Pop(q)) == FairQueues.Count(q) - 1
  {
    FairQueues.PopCount(q);
    var r := FairQueues.Pop(q);
    forall i, p | 0 <= i < |r| && p in r[i].packets ensures WaitingOk(p, c) {
      if i < |q| - 1 { assert p in q[i + 1].packets; } else { assert p in q[0].packets; }
    }
  }

  lemma {:induction false} PopKeeps(t: State, c: Class)
    requires QueuesOk(t.realtime, t.small, t.bulk) && HeadOf(t, c).Some?
    ensures var r := PopQueue(t, c);
      && QueuesOk(r.realtime, r.small, r.bulk) && Queued(r) == Queued(t) - 1
      && |r.bulk| == |t.bulk| - (if c == Bulk then 1 else 0)
    ensures WaitingOk(HeadOf(t, c).value, c)
  {
    if c == Realtime { PopRotation(t.realtime, c); }
    if c == Small { PopRotation(t.small, c); }
    if c == Bulk { assert t.bulk == [t.bulk[0]] + t.bulk[1..]; }
  }

  lemma {:induction false} DropKeepsInv(t: State, c: Class)
    requires Inv(t) && HeadOf(t, c).Some?
    ensures Inv(PopQueue(t, c).(drops := t.drops + 1))
  {
    hide LanesOk, CarriesKnown, PacketsOk, PendingOk, QueuesOk, ReceiptsOk, ReceiversOk, BulkAmong;
    PopKeeps(t, c);
  }

  lemma {:induction false} AddPending(pending: set<nat>, order: seq<nat>, acked: set<nat>, known: set<nat>, n: nat)
    requires PendingOk(pending, order, acked, known) && n !in known
    ensures PendingOk(pending + {n}, order + [n], acked, known + {n})
    ensures |pending + {n}| == |pending| + 1
  {
    var order' := order + [n];
    forall i, j | 0 <= i < j < |order'| ensures order'[i] != order'[j] {
      if j == |order| { assert order'[i] in order; }
    }
  }

  lemma {:induction false} AddBulk(pending: set<nat>, packets: map<nat, Packet>, n: nat, p: Packet)
    requires n !in packets && n !in pending
    ensures |BulkAmong(pending + {n}, packets[n := p])|
         == |BulkAmong(pending, packets)| + (if p.class_ == Bulk then 1 else 0)
  {
    var before, after := BulkAmong(pending, packets), BulkAmong(pending + {n}, packets[n := p]);
    if p.class_ == Bulk { assert after == before + {n}; } else { assert after == before; }
  }

  lemma {:induction false} AddPacket(packets: map<nat, Packet>, counter: nat, p: Packet)
    requires PacketsOk(packets, counter) && p.number == counter + 1 && TransmittedOk(p)
    ensures PacketsOk(packets[counter + 1 := p], counter + 1)
  {
  }

  lemma {:induction false} RegisterAfterPop(t: State, c: Class, now: Time)
    requires QueuesOk(t.realtime, t.small, t.bulk) && HeadOf(t, c).Some?
    requires PacketsOk(t.packets, t.counter) && CarriesKnown(t.lanes, t.packets)
    requires now <= HeadOf(t, c).value.queueDeadline
    ensures var p := HeadOf(t, c).value;
      var r := Register(PopQueue(t, c), p, now);
      && r.lanes == t.lanes && CarriesKnown(r.lanes, r.packets)
      && r.packets == t.packets[t.counter + 1 := r.packets[t.counter + 1]]
      && r.packets[t.counter + 1].class_ == c
      && TransmittedOk(r.packets[t.counter + 1].(attempts := 1, lastSent := now))
      && r.packets[t.counter + 1].number == t.counter + 1 && r.packets[t.counter + 1].attempts == 0
  {
    PopKeeps(t, c);
    var r := Register(PopQueue(t, c), HeadOf(t, c).value, now);
    SameClasses(t.lanes, t.packets, t.counter + 1, r.packets[t.counter + 1]);
  }

  /** The counts after a first transmission. */
  lemma {:induction false} SendCounts(t: State, c: Class, i: nat, now: Time)
    requires Inv(t) && QueuesValid(t)
    requires i < |t.lanes| && HeadOf(t, c).Some? && now <= HeadOf(t, c).value.queueDeadline
    ensures var r := SendFirst(PopQueue(t, c), HeadOf(t, c).value, i, now); Conserved(r) && Admitted(r)
  {
    hide LanesOk, CarriesKnown, QueuesOk, ReceiptsOk, ReceiversOk, BulkAmong, PendingOk, PacketsOk, HeadOf, PopQueue,
         FairQueues.Count;
    PopFrame(t, c);
    RegisterAfterPop(t, c, now);
    PopKeeps(t, c);
    NotKnown(t);
    var n, r := t.counter + 1, SendFirst(PopQueue(t, c), HeadOf(t, c).value, i, now);
    AddBulk(t.pending, t.packets, n, r.packets[n]);
    assert r.packets == t.packets[n := r.packets[n]] && r.pending == t.pending + {n};
  }

  /** The lanes after a first transmission. */
  lemma {:induction false} SendLanes(t: State, c: Class, i: nat, now: Time)
    requires Inv(t) && QueuesValid(t)
    requires i < |t.lanes| && HeadOf(t, c).Some? && now <= HeadOf(t, c).value.queueDeadline
    ensures var r := SendFirst(PopQueue(t, c), HeadOf(t, c).value, i, now);
      LanesOk(r.lanes) && CarriesKnown(r.lanes, r.packets)
  {
    hide LanesOk, CarriesKnown, QueuesOk, ReceiptsOk, ReceiversOk, PendingOk, PacketsOk, HeadOf, PopQueue, Conserved,
         Admitted, TransmittedOk, BeginAttempt;
    PopFrame(t, c);
    RegisterAfterPop(t, c, now);
    ChargedLanes(Register(PopQueue(t, c), HeadOf(t, c).value, now), t.counter + 1, i, now);
  }

  /** The datagrams after a first transmission. */
  lemma {:induction false} SendRecords(t: State, c: Class, i: nat, now: Time)
    requires Inv(t) && QueuesValid(t)
    requires i < |t.lanes| && HeadOf(t, c).Some? && now <= HeadOf(t, c).value.queueDeadline
    ensures var r := SendFirst(PopQueue(t, c), HeadOf(t, c).value, i, now);
      PacketsOk(r.packets, r.counter) && PendingOk(r.pending, r.pendingOrder, r.acked, r.packets.Keys)
  {
    hide LanesOk, CarriesKnown, QueuesOk, ReceiptsOk, ReceiversOk, PendingOk, PacketsOk, HeadOf, PopQueue, Conserved,
         Admitted, SendFirst, TransmittedOk;
    var n := t.counter + 1;
    SentRecord(t, c, i, now);
    NotKnown(t);
    var r := SendFirst(PopQueue(t, c), HeadOf(t, c).value, i, now);
    AddPacket(t.packets, t.counter, r.packets[n]);
    AddPending(t.pending, t.pendingOrder, t.acked, t.packets.Keys, n);
    assert r.packets.Keys == t.packets.Keys + {n};
  }

  /** A first transmission adds one record and takes the next number. */
  lemma {:induction false} SentRecord(t: State, c: Class, i: nat, now: Time)
    requires Inv(t) && QueuesValid(t)
    requires i < |t.lanes| && HeadOf(t, c).Some? && now <= HeadOf(t, c).value.queueDeadline
    ensures PopQueue(t, c).lanes == t.lanes
    ensures var n, r := t.counter + 1, SendFirst(PopQueue(t, c), HeadOf(t, c).value, i, now);
      && n in r.packets && r.packets == t.packets[n := r.packets[n]] && r.pending == t.pending + {n}
      && r.pendingOrder == t.pendingOrder + [n] && r.acked == t.acked && r.counter == n
      && r.packets[n].number == n && TransmittedOk(r.packets[n])
  {
    hide LanesOk, CarriesKnown, QueuesOk, ReceiptsOk, ReceiversOk, PendingOk, PacketsOk, HeadOf, PopQueue, Conserved,
         Admitted, BeginAttempt;
    PopFrame(t, c);
    RegisterAfterPop(t, c, now);
  }

  lemma {:induction false} SendKeeps(t: State, c: Class, i: nat, now: Time)
    requires Inv(t) && QueuesValid(t)
    requires i < |t.lanes| && HeadOf(t, c).Some? && now <= HeadOf(t, c).value.queueDeadline
    ensures Inv(SendFirst(PopQueue(t, c), HeadOf(t, c).value, i, now))
  {
    hide LanesOk, CarriesKnown, QueuesOk, ReceiptsOk, ReceiversOk, PendingOk, PacketsOk, HeadOf, PopQueue, Conserved,
         Admitted;
    PopFrame(t, c);
    PopKeeps(t, c);
    SendCounts(t, c, i, now);
    SendLanes(t, c, i, now);
    SendRecords(t, c, i, now);
  }

  lemma {:induction false} NotKnown(t: State)
    requires Inv(t)
    ensures t.counter + 1 !in t.packets && t.counter + 1 !in t.pending
  {
  }

  /** Taking from a queue changes nothing but the queue. */
  lemma {:induction false} PopFrame(t: State, c: Class)
    requires QueuesOk(t.realtime, t.small, t.bulk) && HeadOf(t, c).Some?
    ensures var r := PopQueue(t, c); r == t.(realtime := r.realtime, small := r.small, bulk := r.bulk)
  {
  }

  // ----- the other steps -----

  lemma {:induction false} SetRemoteKeeps(t: State, epoch: Epoch, adopted: bool)
    requires Inv(t)
    ensures Inv(SetRemote(t, epoch, adopted))
  {
    hide QueuesOk;
    if AcceptsRemote(t, epoch, adopted) {
      forall i | 0 <= i < |t.lanes| ensures Balanced(ResetLane(t.lanes[i])) {
        ResetKeeps(t.lanes[i]);
      }
      assert BulkAmong({}, map[]) == {};
    }
  }

  lemma {:induction false} PathKeeps(t: State, id: PathId, remoteId: PathId, now: Time)
    requires Inv(t) && t.lastTime <= now
    ensures Inv(Path(t, id, remoteId, now))
  {
    var i := Find(t.lanes, id);
    LaterKeeps(t, now);
    if i < |t.lanes| {
      LaneFieldsKeep(t.(lastTime := now), i, t.lanes[i].(lease := now));
    } else {
      NewLaneBalanced(id, remoteId, now);
      var lanes := t.lanes + [NewLane(id, remoteId, now)];
      assert LanesOk(lanes) && CarriesKnown(lanes, t.packets);
      LanesOnly(t.(lastTime := now), lanes);
    }
  }

  lemma {:induction false} DisableKeeps(t: State, id: PathId)
    requires Inv(t)
    ensures Inv(Disable(t, id))
  {
    var i := Find(t.lanes, id);
    if i < |t.lanes| {
      LaneFieldsKeep(t, i, t.lanes[i].(lease := 0));
    }
  }

  lemma {:induction false} LaterKeeps(t: State, now: Time)
    requires Inv(t) && t.lastTime <= now
    ensures Inv(t.(lastTime := now))
  {
    hide LanesOk, CarriesKnown, PacketsOk, PendingOk, QueuesOk, ReceiptsOk;
  }

  lemma {:induction false} PushRotation(q: FairQueues.Rotation, p: Packet, c: Class)
    requires RotationOk(q, c) && WaitingOk(p, c)
    ensures RotationOk(FairQueues.Push(q, p), c)
    ensures FairQueues.Count(FairQueues.Push(q, p))
         == FairQueues.Count(q) + (if FairQueues.Coalesces(FairQueues.Waiting(q, p.flow), p) then 0 else 1)
  {
    FairQueues.PushCount(q, p);
    var r, k := FairQueues.Push(q, p), FairQueues.Position(q, p.flow);
    forall i, x | 0 <= i < |r| && x in r[i].packets ensures WaitingOk(x, c) {
      if i < |q| && i != k { assert x in q[i].packets; }
      if i < |q| && i == k && x != p { assert x in q[i].packets; }
    }
  }

  /** Room for one more datagram of the class is what admission needs. */
  lemma {:induction false} AdmitKeeps(t: State, p: Packet)
    requires Inv(t) && WaitingOk(p, p.class_) && Queued(t) + |t.pending| < Limit(p.class_)
    ensures Inv(Admit(t, p).(offered := t.offered + 1))
  {
    hide LanesOk, CarriesKnown, PacketsOk, PendingOk, ReceiptsOk, ReceiversOk, RotationOk, BulkAmong;
    hide FairQueues.Push, FairQueues.Count, FairQueues.Coalesces, FairQueues.Waiting;
    match p.class_ {
      case Realtime => PushRotation(t.realtime, p, Realtime);
      case Small => PushRotation(t.small, p, Small);
      case Bulk => BulkPart(t.pending, t.packets);
    }
  }

  lemma {:induction false} EnqueueKeeps(t: State, payload: seq<Byte>, flow: FlowId, ack: TcpAck, age: nat, now: Time)
    requires Inv(t) && t.lastTime <= now
    ensures Inv(Enqueue(t, payload, flow, ack, age, now))
  {
    hide LanesOk, CarriesKnown, PacketsOk, PendingOk, ReceiptsOk, ReceiversOk, QueuesOk, WaitingOk, BulkAmong, Admit,
         Classify;
    LaterKeeps(t, now);
    var c := Classify(|payload|, flow, ack);
    if 1 <= |payload| <= MAX_DATAGRAM && Queued(t) + |t.pending| < Limit(c) {
      NewWaiting(payload, flow, ack, age, now);
      AdmitKeeps(t.(lastTime := now),
        NewPacket(payload, flow, ack, now, now + if c == Bulk then age else MAX_QUEUE_AGE));
      AdmitOffered(t.(lastTime := now),
        NewPacket(payload, flow, ack, now, now + if c == Bulk then age else MAX_QUEUE_AGE));
    }
  }

  lemma {:induction false} AdmitOffered(t: State, p: Packet)
    ensures Admit(t.(offered := t.offered + 1), p) == Admit(t, p).(offered := t.offered + 1)
  {
  }

  lemma {:induction false} NewWaiting(payload: seq<Byte>, flow: FlowId, ack: TcpAck, age: nat, now: Time)
    requires 1 <= |payload| <= MAX_DATAGRAM
    ensures var c := Classify(|payload|, flow, ack);
      var p := NewPacket(payload, flow, ack, now, now + if c == Bulk then age else MAX_QUEUE_AGE);
      WaitingOk(p, c) && p.flow == flow
  {
  }

  lemma {:induction false} BulkPart(pending: set<nat>, packets: map<nat, Packet>)
    ensures |BulkAmong(pending, packets)| <= |pending|
  {
    SubsetCount(BulkAmong(pending, packets), pending);
  }

  lemma {:induction false} MarkReceipts(received: Window, unreported: Window, n: nat)
    requires ReceiptsOk(received, unreported) && received.Accepts(n) && n != 0
    ensures ReceiptsOk(received.Mark(n), unreported.Mark(n))
    ensures n in received.Mark(n).marks && n in unreported.Mark(n).marks
  {
  }

  lemma {:induction false} ArriveKeeps(
    receivers: map<PathId, Receiver>, lane: PathId, r: Receiver, lastTime: Time, now: Time)
    requires ReceiversOk(receivers, lastTime) && lastTime <= now
    requires ReceiverOk(r, lane, now)
    ensures ReceiversOk(receivers[lane := r], now)
  {
  }

  lemma {:induction false} DataKeeps(t: State, path: PathId, d: Data, now: Time)
    requires Inv(t)
    ensures Inv(ReceiveData(t, path, d, now).0)
  {
    hide LanesOk, CarriesKnown, PacketsOk, PendingOk, QueuesOk, ReceiptsOk, ReceiversOk, BulkAmong;
    if DataRefusal(t, path, d, now).None? {
      var r := ReceiverFor(t, path, d.lane, now);
      ReceiverReady(t, path, d, now);
      ArriveKeeps(t.receivers, d.lane, r, t.lastTime, now);
      if r.receipts.Accepts(d.attempt) {
        ArriveKeeps(t.receivers, d.lane, Arrive(r, d, now), t.lastTime, now);
        if d.number != 0 && t.received.Accepts(d.number) {
          MarkReceipts(t.received, t.unreported, d.number);
        }
      }
    } else if now >= t.lastTime {
      LaterKeeps(t, now);
    }
  }

  lemma {:induction false} ReceiverReady(t: State, path: PathId, d: Data, now: Time)
    requires ReceiversOk(t.receivers, t.lastTime) && t.lastTime <= now
    ensures var r := ReceiverFor(t, path, d.lane, now);
      ReceiverOk(r, d.lane, now) && ReceiverOk(Arrive(r, d, now), d.lane, now)
  {
  }

  lemma {:induction false} AckKeeps(t: State, path: PathId, f: Ack, late: set<nat>, now: Time)
    requires Inv(t)
    ensures Inv(ReceiveAck(t, path, f, late, now).0)
  {
    hide Inv, ApplyAck;
    if AckRefusal(t, path, f, now).None? {
      var i := Find(t.lanes, path);
      var l := t.lanes[i].(ackReceipts := t.lanes[i].ackReceipts.Mark(f.revision),
                           ackRevision := Max(f.revision, t.lanes[i].ackRevision));
      LaterKeeps(t, now);
      InvLane(t, i);
      LaneFieldsKeep(t.(lastTime := now), i, l);
      ApplyAckKeeps(t.(lastTime := now, lanes := t.lanes[i := l]), i, f.body, f.revision > t.lanes[i].ackRevision,
        late);
    } else if now >= t.lastTime {
      LaterKeeps(t, now);
    }
  }

  lemma {:induction false} ForgetReceipts(received: Window, unreported: Window, top: nat)
    requires ReceiptsOk(received, unreported)
    ensures ReceiptsOk(received, unreported.Forget(top))
  {
  }

  lemma {:induction false} EmitKeeps(t: State, lane: PathId, now: Time)
    requires Inv(t) && lane in t.receivers && t.lastTime <= now
    ensures Inv(EmitAck(t, lane, now).(lastTime := now))
  {
    hide LanesOk, CarriesKnown, PacketsOk, PendingOk, QueuesOk, ReceiptsOk, BulkAmong;
    ForgetReceipts(t.received, t.unreported, ReportTop(t));
    assert ReceiverOk(t.receivers[lane], lane, t.lastTime);
  }

  lemma {:induction false} TimeOutStepKeeps(t: State, i: nat, rto: nat, now: Time)
    requires Inv(t) && i < |t.lanes| && t.lastTime <= now
    ensures Inv(t.(lanes := t.lanes[i := TimeOut(t.lanes[i], rto, now)], lastTime := now))
  {
    var l := t.lanes[i];
    TimeOutKeeps(l, rto, now);
    assert Holds(l, t.packets);
    assert Holds(TimeOut(l, rto, now), t.packets);
    ReplaceLane(t.lanes, t.packets, i, TimeOut(l, rto, now));
    LaterKeeps(t, now);
    LanesOnly(t.(lastTime := now), t.lanes[i := TimeOut(l, rto, now)]);
  }

  lemma {:induction false} PingKeeps(t: State, i: nat, now: Time)
    requires Inv(t) && i < |t.lanes| && t.lastTime <= now
    ensures Inv(t.(lanes := t.lanes[i := BeginAttempt(t.lanes[i], Ping, WIRE_OVERHEAD, now)], lastTime := now))
  {
    var l := t.lanes[i];
    assert Holds(l, t.packets);
    BeginLane(l, Ping, WIRE_OVERHEAD, now, t.packets);
    ReplaceLane(t.lanes, t.packets, i, BeginAttempt(l, Ping, WIRE_OVERHEAD, now));
    LaterKeeps(t, now);
    LanesOnly(t.(lastTime := now), t.lanes[i := BeginAttempt(l, Ping, WIRE_OVERHEAD, now)]);
  }

  lemma {:induction false} WithoutDistinct(order: seq<nat>, n: nat)
    requires Basics.Distinct(order)
    ensures Basics.Distinct(Without(order, n))
  {
    if order != [] {
      WithoutDistinct(order[1..], n);
      assert order == [order[0]] + order[1..];
      assert order[0] !in order[1..];
    }
  }

  lemma {:induction false} WithoutPending(pending: set<nat>, order: seq<nat>, acked: set<nat>, known: set<nat>, n: nat)
    requires PendingOk(pending, order, acked, known) && n in order
    ensures PendingOk(pending - {n}, Without(order, n), acked, known)
    ensures |pending - {n}| == |pending| - if n in acked then 0 else 1
  {
    WithoutDistinct(order, n);
    if n in acked { assert pending - {n} == pending; }
  }

  lemma {:induction false} RetireKeeps(t: State, n: nat, now: Time)
    requires Inv(t) && n in t.pendingOrder && t.lastTime <= now
    ensures Inv(t.(pendingOrder := Without(t.pendingOrder, n), pending := t.pending - {n},
                   expired := t.expired + (if n in t.acked then 0 else 1), lastTime := now))
  {
    hide LanesOk, CarriesKnown, PacketsOk, PendingOk, QueuesOk, ReceiptsOk, BulkAmong;
    WithoutPending(t.pending, t.pendingOrder, t.acked, t.packets.Keys, n);
    BulkShrinks(t.pending, {n}, t.packets);
  }

  /** Every step of a transport keeps the whole invariant, whatever the lane control decides. */
  lemma {:induction false} StepKeeps(t: State, op: Op)
    requires Inv(t) && Enabled(t, op)
    ensures Inv(Step(t, op))
  {
    hide Inv, SetRemote, Path, Disable, Enqueue, ReceiveData, ReceiveAck, EmitAck, TimeOut, PopQueue, HeadOf;
    match op
    case SetRemoteOp(epoch, adopted) => SetRemoteKeeps(t, epoch, adopted);
    case PathOp(id, remoteId, now) => PathKeeps(t, id, remoteId, now);
    case DisableOp(id) => DisableKeeps(t, id);
    case EnqueueOp(payload, flow, ack, age, now) => EnqueueKeeps(t, payload, flow, ack, age, now);
    case DataOp(path, data, now) => DataKeeps(t, path, data, now);
    case AckOp(path, f, late, now) => AckKeeps(t, path, f, late, now);
    case EmitOp(lane, _, now) => EmitKeeps(t, lane, now);
    case TimeOutOp(i, rto, now) => TimeOutStepKeeps(t, i, rto, now);
    case PingOp(i, _, now) => PingKeeps(t, i, now);
    case ForgetOp(n, now) => RetireKeeps(t, n, now);
    case ExpireOp(n, now) => RetireKeeps(t, n, now);
    case MoveOp(n, i, now) => RetransmitKeeps(t, n, i, now); LaterKeeps(Transmit(t, n, i, now), now);
    case RepairOp(n, i, _, now) => RetransmitKeeps(t, n, i, now); LaterKeeps(Transmit(t, n, i, now), now);
    case CopyOp(n, i, now) => RetransmitKeeps(t, n, i, now); LaterKeeps(Transmit(t, n, i, now), now);
    case SendOp(c, i, now) =>
      PopTime(t, c);
      SendKeeps(t, c, i, now);
      LaterKeeps(SendFirst(PopQueue(t, c), HeadOf(t, c).value, i, now), now);
    case DropOp(c, now) =>
      DropKeepsInv(t, c);
      PopTime(t, c);
      LaterKeeps(PopQueue(t, c).(drops := t.drops + 1), now);
  }

  lemma {:induction false} PopTime(t: State, c: Class)
    requires QueuesValid(t) && HeadOf(t, c).Some?
    ensures PopQueue(t, c).lastTime == t.lastTime && PopQueue(t, c).lanes == t.lanes
  {
  }
}
