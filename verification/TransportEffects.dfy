/** What the operations of a transport change, exactly, and how datagrams are numbered over a run. */
module TransportEffects {
  import opened Packets
  import opened ReceiptWindows
  import FairQueues
  import opened TransportState
  import opened TransportSteps
  import opened TransportLaws
  import opened TransportRuns
  import opened AckLaws

  const SECOND: nat := 1000 * MILLISECOND

  // ----- leases and remotes -----

  /** Path leases one lane for a second, creating it at the end if it is new, and leaves the others alone. */
  lemma {:induction false} PathLeases(t: State, id: PathId, remoteId: PathId, now: Time)
    ensures var i, r := Find(t.lanes, id), Path(t, id, remoteId, now);
      && |r.lanes| == |t.lanes| + (if i == |t.lanes| then 1 else 0) && i < |r.lanes|
      && (forall j :: 0 <= j < |t.lanes| && j != i ==> r.lanes[j] == t.lanes[j])
      && r.lanes[i] == (if i < |t.lanes| then t.lanes[i] else NewLane(id, remoteId, now)).(lease := now)
      && r == t.(lanes := r.lanes, lastTime := now)
      && forall u: Time :: u >= now ==> (r.lanes[i].Up(u) <==> now != 0 && u < now + SECOND)
  {
  }

  /** Disable ends one lease: the lane is up at no time, and the others are left alone. */
  lemma {:induction false} DisableEnds(t: State, id: PathId)
    ensures var i, r := Find(t.lanes, id), Disable(t, id);
      && |r.lanes| == |t.lanes| && r == t.(lanes := r.lanes)
      && (forall j :: 0 <= j < |t.lanes| && j != i ==> r.lanes[j] == t.lanes[j])
      && (i < |t.lanes| ==>
            r.lanes[i] == t.lanes[i].(lease := r.lanes[i].lease) && forall u: Time :: !r.lanes[i].Up(u))
  {
  }

  /** A remote is accepted exactly if real, and the first, a newer generation of its boot, or another boot adopted. */
  lemma {:induction false} AcceptedIff(t: State, epoch: Epoch, adopted: bool)
    requires t.remote.boot == 0 ==> t.remote == NO_EPOCH
    ensures AcceptsRemote(t, epoch, adopted) <==>
      && epoch.boot > 0 && epoch.generation > 0
      && (|| t.remote.boot == 0
          || (epoch.boot == t.remote.boot && epoch.generation > t.remote.generation)
          || (epoch.boot != t.remote.boot && adopted))
  {
  }

  /**
   * An accepted remote starts afresh. All that belongs to the pair of epochs is as in a new transport, and every
   * lane as a new one without a lease, up at no time; what waits in the queues stays, what was pending has
   * expired, and lanes keep their identity and the counts of their lifetime.
   */
  lemma {:induction false} RemoteStartsAfresh(t: State, epoch: Epoch, adopted: bool)
    requires AcceptsRemote(t, epoch, adopted)
    ensures var r := SetRemote(t, epoch, adopted);
      && r == New(t.epoch).(
           remote := epoch, held := t.held + {epoch}, lastTime := t.lastTime, lanes := r.lanes,
           bulk := t.bulk, realtime := t.realtime, small := t.small,
           drops := t.drops, coalesced := t.coalesced, duplicates := t.duplicates,
           offered := t.offered, originals := t.originals, confirmed := t.confirmed,
           expired := t.expired + |t.pending|)
      && |r.lanes| == |t.lanes|
      && forall j :: 0 <= j < |t.lanes| ==>
           && r.lanes[j] == NewLane(t.lanes[j].id, t.lanes[j].remoteId, 0).(
                lastTransmit := t.lanes[j].lastTransmit, sent := t.lanes[j].sent, acked := t.lanes[j].acked,
                retries := t.lanes[j].retries)
           && forall u: Time :: !r.lanes[j].Up(u)
  {
  }

  // ----- admission -----

  /** The datagram as it waits: its class by size, protocol and acknowledgement, and its deadline by class. */
  ghost predicate Waits(p: Packet, payload: seq<Byte>, flow: FlowId, ack: TcpAck, age: nat, now: Time) {
    && p.payload == payload && p.flow == flow && p.ack == ack && p.created == now
    && p.number == 0 && p.attempts == 0
    && p.class_ == (if |payload| > 384 then Bulk else if flow[1] == 6 || ack.eligible then Small else Realtime)
    && p.queueDeadline == now + if |payload| > 384 then age else SECOND / 10
  }

  /**
   * Enqueue, exactly. A datagram of bad length is not counted. One offered beyond the bound, which for bulk is
   * 1024 lower, is dropped. Any other waits at the end of bulk, or is pushed to the fair queue of its class.
   */
  lemma {:induction false} EnqueueIs(t: State, payload: seq<Byte>, flow: FlowId, ack: TcpAck, age: nat, now: Time)
    ensures var r := Enqueue(t, payload, flow, ack, age, now);
      var full := Queued(t) + |t.pending| >= if |payload| > 384 then 7168 else 8192;
      if |payload| < 1 || |payload| > 9000 then r == t.(lastTime := now)
      else if full then r == t.(lastTime := now, offered := t.offered + 1, drops := t.drops + 1)
      else exists p :: (Waits(p, payload, flow, ack, age, now) && Joins(t, r, p, now))
  {
    hide FairQueues.Push, FairQueues.Coalesces, FairQueues.Waiting, FairQueues.Count;
    var c := Classify(|payload|, flow, ack);
    var p := NewPacket(payload, flow, ack, now, now + if c == Bulk then age else MAX_QUEUE_AGE);
    if 1 <= |payload| <= MAX_DATAGRAM && Queued(t) + |t.pending| < Limit(c) {
      assert Waits(p, payload, flow, ack, age, now) && Joins(t, Enqueue(t, payload, flow, ack, age, now), p, now);
    }
  }

  ghost predicate Joins(t: State, r: State, p: Packet, now: Time) {
    && r == t.(lastTime := now, offered := t.offered + 1, bulk := r.bulk, realtime := r.realtime, small := r.small,
               coalesced := r.coalesced)
    && r.bulk == (if p.class_ == Bulk then t.bulk + [p] else t.bulk)
    && r.realtime == (if p.class_ == Realtime then FairQueues.Push(t.realtime, p) else t.realtime)
    && r.small == (if p.class_ == Small then FairQueues.Push(t.small, p) else t.small)
    && r.coalesced == t.coalesced
       + if || (p.class_ == Realtime && FairQueues.Coalesces(FairQueues.Waiting(t.realtime, p.flow), p))
            || (p.class_ == Small && FairQueues.Coalesces(FairQueues.Waiting(t.small, p.flow), p)) then 1 else 0
  }

  /**
   * An acknowledgement supersedes another exactly if both are plain and alike, and its number is ahead by less
   * than half the range, as are its timestamps or the same.
   */
  lemma {:induction false} SupersedesIff(a: TcpAck, b: TcpAck)
    ensures a.Supersedes(b) <==>
      && a.eligible && b.eligible && a.window > 0 && b.window > 0
      && a.sequence == b.sequence && a.trafficClass == b.trafficClass && a.timestamp == b.timestamp
      && (exists d: nat :: 0 < d < 0x8000_0000 && Advanced(b.acknowledgement, d) == a.acknowledgement)
      && (a.timestamp ==>
            && (exists d: nat :: d < 0x8000_0000 && Advanced(b.tsVal, d) == a.tsVal)
            && (exists d: nat :: d < 0x8000_0000 && Advanced(b.tsEcr, d) == a.tsEcr))
  {
    AheadIff(a.acknowledgement, b.acknowledgement);
    AheadIff(a.tsVal, b.tsVal);
    AheadIff(a.tsEcr, b.tsEcr);
  }

  /** A serial number so many further, past the end from zero again. */
  function Advanced(n: Uint32, d: nat): Uint32 {
    (n + d) % 0x1_0000_0000
  }

  lemma {:induction false} AheadIff(a: Uint32, b: Uint32)
    ensures 0 <= Ahead(a, b) <==> exists d: nat :: d < 0x8000_0000 && Advanced(b, d) == a
    ensures 0 < Ahead(a, b) <==> exists d: nat :: 0 < d < 0x8000_0000 && Advanced(b, d) == a
  {
    var k := Ahead(a, b);
    if 0 <= k { assert Advanced(b, k) == a; }
    forall d: nat | d < 0x8000_0000 && Advanced(b, d) == a ensures k == d { Unique(a, b, k, d); }
  }

  lemma {:induction false} Unique(a: Uint32, b: Uint32, k: int, d: nat)
    requires -0x8000_0000 <= k < 0x8000_0000 && (b + k - a) % 0x1_0000_0000 == 0
    requires d < 0x8000_0000 && (b + d) % 0x1_0000_0000 == a
    ensures k == d
  {
    var m := 0x1_0000_0000;
    var x, y := (b + k - a) / m, (b + d) / m;
    assert b + k - a == m * x && b + d == m * y + a;
    assert k - d == m * (x - y);
  }

  // ----- transmission -----

  /** A transmission is recorded on its lane and with its datagram, and touches nothing else. */
  lemma {:induction false} TransmissionRecorded(t: State, n: nat, i: nat, now: Time)
    requires n in t.packets && i < |t.lanes|
    ensures var r, l, p := Transmit(t, n, i, now), t.lanes[i], t.packets[n];
      var l', p' := r.lanes[i], r.packets[n];
      && r == t.(lanes := t.lanes[i := l'], packets := t.packets[n := p'], pending := t.pending + {n})
      && l'.counter == l.counter + 1 && l'.lastTransmit == now && l'.sent == l.sent + WireBytes(p.payload)
      && l'.attempts == l.attempts[l'.counter :=
           Attempt(Datagram(n, p.class_), now, WireBytes(p.payload), false, false, l'.sent)]
      && l'.retries == l.retries + (if p.attempts > 0 then 1 else 0)
      && p' == p.(attempts := p.attempts + 1, lastSent := now, lastPath := l.id, lastLaneNumber := l'.counter)
      && TransmittedData(t, n, i) == Data(t.epoch, t.remote, l.id, l'.counter, n, p.order, p.payload)
  {
  }

  /** A ping is a transmission without a datagram. */
  lemma {:induction false} PingRecorded(l: Lane, now: Time)
    ensures var r := BeginAttempt(l, Ping, WIRE_OVERHEAD, now);
      && r.counter == l.counter + 1 && r.lastTransmit == now && r.sent == l.sent + WIRE_OVERHEAD
      && r.attempts == l.attempts[r.counter := Attempt(Ping, now, WIRE_OVERHEAD, false, false, r.sent)]
      && r.classInflight == l.classInflight && r.inflight == l.inflight + WIRE_OVERHEAD
  {
  }

  /** The timeout sweep: what is two seconds old is forgotten, what is as old as the timeout released, and no more. */
  lemma {:induction false} TimedOutExactly(l: Lane, rto: nat, now: Time)
    ensures var r := TimeOut(l, rto, now);
      && (forall s :: s in r.attempts <==> s in l.attempts && now < l.attempts[s].sent + 2 * SECOND)
      && forall s :: s in r.attempts ==>
           r.attempts[s] == l.attempts[s].(released := l.attempts[s].released || now >= l.attempts[s].sent + rto)
  {
    hide Sum;
  }

  /** Retiring a datagram takes it off the pending order, and counts it as expired unless it was acknowledged. */
  lemma {:induction false} RetirementIs(t: State, op: Op, m: nat)
    requires (op.ForgetOp? || op.ExpireOp?) && Inv(t) && Enabled(t, op)
    ensures var r := Step(t, op);
      && (m in r.pendingOrder <==> m in t.pendingOrder && m != op.n)
      && (m in r.pending <==> m in t.pending && m != op.n)
      && r == t.(pendingOrder := r.pendingOrder, pending := r.pending, lastTime := op.now,
                 expired := t.expired + if op.n in t.acked then 0 else 1)
  {
    hide Without, LanesOk, QueuesOk, ReceiptsOk, ReceiversOk, PacketsOk;
  }

  // ----- delivery numbers -----

  /** How many of the first k numbered datagrams belong to a stream. */
  ghost function Rank(packets: map<nat, Packet>, k: nat, interactive: bool): nat {
    if k == 0 then 0 else
      Rank(packets, k - 1, interactive)
      + if k in packets && packets[k].order.interactive == interactive then 1 else 0
  }

  /** Every datagram's delivery number is its rank in its stream, small traffic and bulk apart. */
  ghost predicate Ranked(t: State) {
    && t.bulkCounter == Rank(t.packets, t.counter, false) && t.interactiveCounter == Rank(t.packets, t.counter, true)
    && forall n :: n in t.packets ==>
         && t.packets[n].order.interactive == (t.packets[n].class_ != Bulk)
         && t.packets[n].order.index == Rank(t.packets, n, t.packets[n].order.interactive)
  }

  lemma {:induction false} RankSame(p: map<nat, Packet>, q: map<nat, Packet>, k: nat, interactive: bool)
    requires forall n :: 1 <= n <= k ==> (n in p <==> n in q)
    requires forall n :: 1 <= n <= k && n in p ==> p[n].order == q[n].order
    ensures Rank(p, k, interactive) == Rank(q, k, interactive)
  {
    if k > 0 { RankSame(p, q, k - 1, interactive); }
  }

  lemma {:induction false} SameRanked(t: State, r: State)
    requires Ranked(t) && r.packets.Keys == t.packets.Keys && r.counter == t.counter
    requires r.bulkCounter == t.bulkCounter && r.interactiveCounter == t.interactiveCounter
    requires forall n :: n in t.packets ==>
      r.packets[n].order == t.packets[n].order && r.packets[n].class_ == t.packets[n].class_
    ensures Ranked(r)
  {
    RankSame(t.packets, r.packets, t.counter, true);
    RankSame(t.packets, r.packets, t.counter, false);
    forall n | n in r.packets
      ensures r.packets[n].order.index == Rank(r.packets, n, r.packets[n].order.interactive)
    {
      RankSame(t.packets, r.packets, n, r.packets[n].order.interactive);
    }
  }

  /** The packet as it is numbered: the next in its stream. */
  lemma {:induction false} RegisteredNext(t: State, p: Packet, now: Time)
    ensures var r := Register(t, p, now);
      && r.counter == t.counter + 1 && r.lanes == t.lanes && r.counter in r.packets
      && r.packets == t.packets[r.counter := r.packets[r.counter]]
      && var q := r.packets[r.counter];
        && q.order.interactive == (q.class_ != Bulk)
        && r.interactiveCounter == t.interactiveCounter + (if q.order.interactive then 1 else 0)
        && r.bulkCounter == t.bulkCounter + (if q.order.interactive then 0 else 1)
        && q.order.index == if q.order.interactive then r.interactiveCounter else r.bulkCounter
  {
  }

  lemma {:induction false} RegisterRanked(t: State, p: Packet, now: Time)
    requires Ranked(t) && forall n :: n in t.packets ==> n <= t.counter
    ensures Ranked(Register(t, p, now))
  {
    hide Register;
    var r := Register(t, p, now);
    RegisteredNext(t, p, now);
    forall n: nat, s | n <= t.counter ensures Rank(r.packets, n, s) == Rank(t.packets, n, s) {
      RankSame(t.packets, r.packets, n, s);
    }
  }

  lemma {:induction false} TransmitRanked(t: State, n: nat, i: nat, now: Time)
    requires Ranked(t) && n in t.packets && i < |t.lanes|
    ensures Ranked(Transmit(t, n, i, now).(lastTime := now))
  {
    hide BeginAttempt;
    SameRanked(t, Transmit(t, n, i, now).(lastTime := now));
  }

  lemma {:induction false} SendRanked(t: State, c: Class, i: nat, now: Time)
    requires Inv(t) && Ranked(t) && Enabled(t, SendOp(c, i, now))
    ensures Ranked(Step(t, SendOp(c, i, now)))
  {
    hide HeadOf, PopQueue, Transmit, Ranked, Register, LanesOk, QueuesOk, ReceiptsOk, ReceiversOk, Conserved, Admitted;
    var u, p := PopQueue(t, c), HeadOf(t, c).value;
    PopPackets(t, c);
    SameRanked(t, u);
    NumbersKnownTo(t);
    RegisterRanked(u, p, now);
    RegisteredNext(u, p, now);
    TransmitRanked(Register(u, p, now), t.counter + 1, i, now);
  }

  /** The steps that number no datagram. */
  lemma {:induction false} QuietCounters(t: State, op: Op)
    requires Enabled(t, op) && !op.SetRemoteOp? && !Sends(op)
    ensures var r := Step(t, op);
      r.counter == t.counter && r.bulkCounter == t.bulkCounter && r.interactiveCounter == t.interactiveCounter
  {
    hide ReceiveAck, Enqueue, ReceiveData, TimeOut, EmitAck, BuildAck, Path, Disable, AckRefusal, AckDue, Sweeps,
         Oldest, PopQueue;
    match op {
      case AckOp(path, f, late, now) => AckCounters(t, path, f, late, now);
      case DropOp(c, now) => PopPackets(t, c);
      case EnqueueOp(payload, flow, ack, age, now) => EnqueueCounters(t, payload, flow, ack, age, now);
      case DataOp(path, data, now) => DataCounters(t, path, data, now);
      case PathOp(id, remoteId, now) => PathLeases(t, id, remoteId, now);
      case DisableOp(id) => DisableEnds(t, id);
      case EmitOp(lane, _, now) => EmitCounters(t, lane, now);
      case _ =>
    }
  }

  lemma {:induction false} AckCounters(t: State, path: PathId, f: Ack, late: set<nat>, now: Time)
    ensures var r := ReceiveAck(t, path, f, late, now).0;
      r.counter == t.counter && r.bulkCounter == t.bulkCounter && r.interactiveCounter == t.interactiveCounter
  {
    hide ApplyAck;
    if AckRefusal(t, path, f, now).None? {
      var i := Find(t.lanes, path);
      var l := t.lanes[i].(ackReceipts := t.lanes[i].ackReceipts.Mark(f.revision),
                           ackRevision := Max(f.revision, t.lanes[i].ackRevision));
      AckLanes(t.(lastTime := now, lanes := t.lanes[i := l]), i, f.body, f.revision > t.lanes[i].ackRevision, late);
    }
  }

  lemma {:induction false} EnqueueCounters(t: State, payload: seq<Byte>, flow: FlowId, ack: TcpAck, age: nat, now: Time)
    ensures var r := Enqueue(t, payload, flow, ack, age, now);
      r.counter == t.counter && r.bulkCounter == t.bulkCounter && r.interactiveCounter == t.interactiveCounter
  {
    hide FairQueues.Push, FairQueues.Coalesces, FairQueues.Waiting;
  }

  lemma {:induction false} DataCounters(t: State, path: PathId, d: Data, now: Time)
    ensures var r := ReceiveData(t, path, d, now).0;
      r.counter == t.counter && r.bulkCounter == t.bulkCounter && r.interactiveCounter == t.interactiveCounter
  {
    hide DataRefusal, Arrive, ReceiverFor;
  }

  lemma {:induction false} EmitCounters(t: State, lane: PathId, now: Time)
    requires lane in t.receivers
    ensures var r := EmitAck(t, lane, now);
      r.counter == t.counter && r.bulkCounter == t.bulkCounter && r.interactiveCounter == t.interactiveCounter
  {
  }

  lemma {:induction false} StepRanked(t: State, op: Op)
    requires Inv(t) && Ranked(t) && Enabled(t, op)
    ensures Ranked(Step(t, op))
  {
    hide Inv, Step, Ranked;
    if op.SetRemoteOp? {
      RemoteRanked(t, op);
    } else if op.SendOp? {
      SendRanked(t, op.c, op.i, op.now);
    } else if Sends(op) {
      RepeatRanked(t, op);
    } else {
      QuietFrame(t, op);
      QuietCounters(t, op);
      SameRanked(t, Step(t, op));
    }
  }

  lemma {:induction false} RemoteRanked(t: State, op: Op)
    requires Ranked(t) && op.SetRemoteOp? && Enabled(t, op)
    ensures Ranked(Step(t, op))
  {
  }

  lemma {:induction false} RepeatRanked(t: State, op: Op)
    requires Ranked(t) && Enabled(t, op) && (op.MoveOp? || op.RepairOp? || op.CopyOp?)
    ensures Ranked(Step(t, op))
  {
    hide Ranked, Transmit;
    TransmitRanked(t, op.n, op.i, op.now);
  }

  lemma {:induction false} RunRanked(t: State, ops: seq<Op>)
    requires Inv(t) && Ranked(t) && Executes(t, ops)
    ensures Ranked(Final(t, ops))
    decreases |ops|
  {
    hide Inv, Step, Enabled, Ranked;
    if ops != [] {
      StepKeeps(t, ops[0]);
      StepRanked(t, ops[0]);
      RunRanked(Step(t, ops[0]), ops[1..]);
    }
  }

  lemma {:induction false} RankBounds(packets: map<nat, Packet>, m: nat, n: nat, interactive: bool)
    requires m <= n
    ensures Rank(packets, m, interactive) <= Rank(packets, n, interactive)
  {
    if m < n { RankBounds(packets, m, n - 1, interactive); }
  }

  /** Each rank up to the last is that of a datagram of the stream. */
  lemma {:induction false} RankReached(packets: map<nat, Packet>, k: nat, interactive: bool, x: nat) returns (n: nat)
    requires 1 <= x <= Rank(packets, k, interactive)
    ensures n <= k && n in packets && packets[n].order.interactive == interactive && Rank(packets, n, interactive) == x
  {
    if x == Rank(packets, k, interactive) && k in packets && packets[k].order.interactive == interactive { return k; }
    n := RankReached(packets, k - 1, interactive, x);
  }

  /**
   * Delivery numbers, after every run of a new transport. In each stream, small traffic and bulk apart, the
   * numbers begin at one and leave none out: every number up to the count is that of one datagram, and later
   * datagrams have higher ones.
   */
  lemma {:induction false} DeliveryNumbersConsecutive(epoch: Epoch, ops: seq<Op>, interactive: bool)
    requires Executes(New(epoch), ops)
    ensures var t := Final(New(epoch), ops); var count := if interactive then t.interactiveCounter else t.bulkCounter;
      && (forall x :: 1 <= x <= count ==> exists n :: n in t.packets && t.packets[n].order == Order(interactive, x))
      && (forall n :: n in t.packets && t.packets[n].order.interactive == interactive ==>
            1 <= t.packets[n].order.index <= count)
      && (forall m, n | m in t.packets && n in t.packets && m < n ::
            t.packets[m].order.interactive == t.packets[n].order.interactive == interactive ==>
              t.packets[m].order.index < t.packets[n].order.index)
      && (forall n :: n in t.packets ==> (t.packets[n].order.interactive <==> t.packets[n].class_ != Bulk))
  {
    hide Executes, Final, Inv;
    Initially(epoch);
    RunRanked(New(epoch), ops);
    RunKeeps(New(epoch), ops);
    var t := Final(New(epoch), ops);
    NumbersKnownTo(t);
    forall x | 1 <= x <= Rank(t.packets, t.counter, interactive)
      ensures exists n :: n in t.packets && t.packets[n].order == Order(interactive, x)
    {
      var n := RankReached(t.packets, t.counter, interactive, x);
      assert t.packets[n].order == Order(interactive, x);
    }
    forall m, n | m in t.packets && n in t.packets && m < n && t.packets[n].order.interactive == interactive
      ensures Rank(t.packets, m, interactive) < Rank(t.packets, n, interactive)
    {
      RankBounds(t.packets, m, n - 1, interactive);
    }
    forall n | n in t.packets && t.packets[n].order.interactive == interactive
      ensures 1 <= Rank(t.packets, n, interactive) <= Rank(t.packets, t.counter, interactive)
    {
      RankBounds(t.packets, n, t.counter, interactive);
    }
  }

  lemma {:induction false} NumbersKnownTo(t: State)
    requires Inv(t)
    ensures forall n :: n in t.packets <==> 1 <= n <= t.counter
  {
  }
}
