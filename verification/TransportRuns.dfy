/** Laws of whole runs of one transport. */
module TransportRuns {
  import opened Packets
  import opened ReceiptWindows
  import FairQueues
  import opened TransportState
  import opened TransportSteps
  import opened TransportLaws
  import LaneLaws

  ghost predicate Executes(t: State, ops: seq<Op>)
    decreases |ops|
  {
    ops == [] || (Enabled(t, ops[0]) && Executes(Step(t, ops[0]), ops[1..]))
  }

  ghost function Final(t: State, ops: seq<Op>): State
    requires Executes(t, ops)
    decreases |ops|
  {
    if ops == [] then t else Final(Step(t, ops[0]), ops[1..])
  }

  /** The invariant holds at the end of every run that starts where it holds. */
  lemma {:induction false} RunKeeps(t: State, ops: seq<Op>)
    requires Inv(t) && Executes(t, ops)
    ensures Inv(Final(t, ops))
    decreases |ops|
  {
    hide Inv, Step, Enabled;
    if ops != [] {
      StepKeeps(t, ops[0]);
      RunKeeps(Step(t, ops[0]), ops[1..]);
    }
  }

  /**
   * In-flight conservation. After every run of a new transport each lane's bytes in flight are the
   * bytes of its unreleased transmissions, in total and for each class, and acknowledged plus
   * outstanding bytes never exceed the bytes sent.
   */
  lemma {:induction false} InFlightConservation(epoch: Epoch, ops: seq<Op>, i: nat, c: Class)
    requires Executes(New(epoch), ops)
    requires i < |Final(New(epoch), ops).lanes|
    ensures var l := Final(New(epoch), ops).lanes[i];
      && l.inflight == Sum(l.attempts, InFlight, l.counter)
      && 0 <= l.classInflight.Of(c) == Sum(l.attempts, InFlightOf(c), l.counter) <= l.inflight
      && l.inflight + l.acked <= l.sent
      && l.acked + Sum(l.attempts, Outstanding, l.counter) <= l.sent
  {
    Initially(epoch);
    RunKeeps(New(epoch), ops);
    var l := Final(New(epoch), ops).lanes[i];
    assert LaneLaws.Balanced(l);
    LaneLaws.SumsOrdered(l.attempts, l.counter);
    match c case Realtime => case Small => case Bulk =>
  }

  /**
   * Datagram conservation and admission. Every valid datagram offered is dropped, coalesced, queued
   * or was transmitted; every one transmitted is acknowledged, expired or pending; the pending ones
   * are exactly the unacknowledged datagrams of the pending order; and the bounds hold.
   */
  lemma {:induction false} DatagramConservation(epoch: Epoch, ops: seq<Op>)
    requires Executes(New(epoch), ops)
    ensures var t := Final(New(epoch), ops);
      && t.offered == t.drops + t.coalesced + Queued(t) + t.originals
      && t.originals == t.confirmed + t.expired + |t.pending|
      && (forall n :: n in t.pending <==> n in t.pendingOrder && n !in t.acked)
      && Queued(t) + |t.pending| <= MAX_PACKETS
      && |t.bulk| + |BulkAmong(t.pending, t.packets)| <= MAX_PACKETS - SMALL_PACKET_HEADROOM
  {
    Initially(epoch);
    RunKeeps(New(epoch), ops);
  }

  /** Small datagrams in a queue or awaiting acknowledgement. */
  ghost function SmallOutstanding(t: State): nat {
    FairQueues.Count(t.realtime) + FairQueues.Count(t.small) + |t.pending - BulkAmong(t.pending, t.packets)|
  }

  /** After any run, a small datagram is refused only while at least 1024 small datagrams are outstanding. */
  lemma {:induction false} SmallRefusedOnlyBehindSmall(
    epoch: Epoch, ops: seq<Op>, payload: seq<Byte>, flow: FlowId, ack: TcpAck, age: nat, now: Time)
    requires Executes(New(epoch), ops) && Classify(|payload|, flow, ack) != Bulk
    requires Enqueue(Final(New(epoch), ops), payload, flow, ack, age, now).drops > Final(New(epoch), ops).drops
    ensures SmallOutstanding(Final(New(epoch), ops)) >= SMALL_PACKET_HEADROOM
  {
    hide Executes, Final, FairQueues.Push, FairQueues.Coalesces, FairQueues.Waiting, FairQueues.Count;
    DatagramConservation(epoch, ops);
    var t := Final(New(epoch), ops);
    assert Queued(t) + |t.pending| >= MAX_PACKETS;
    SplitCount(t.pending, BulkAmong(t.pending, t.packets));
    assert t.pending * BulkAmong(t.pending, t.packets) == BulkAmong(t.pending, t.packets);
  }

  // ----- bounded repair -----

  /** The step transmits the datagram numbered n. */
  ghost predicate Transmits(t: State, op: Op, n: nat)
    requires Enabled(t, op)
  {
    n != 0 && Out(t, op).SentData? && Out(t, op).data.number == n
  }

  function Attempts(t: State, n: nat): nat {
    if n in t.packets then t.packets[n].attempts else 0
  }

  /** The instant of a step; steps without one do not transmit. */
  function At(op: Op): Time {
    match op
    case SetRemoteOp(_, _) => 0
    case PathOp(_, _, now) => now
    case DisableOp(_) => 0
    case EnqueueOp(_, _, _, _, now) => now
    case DataOp(_, _, now) => now
    case AckOp(_, _, _, now) => now
    case EmitOp(_, _, now) => now
    case TimeOutOp(_, _, now) => now
    case PingOp(_, _, now) => now
    case ForgetOp(_, now) => now
    case ExpireOp(_, now) => now
    case MoveOp(_, _, now) => now
    case RepairOp(_, _, _, now) => now
    case SendOp(_, _, now) => now
    case CopyOp(_, _, now) => now
    case DropOp(_, now) => now
  }

  /** The deadline a datagram gets with its first transmission. */
  function RepairLimit(p: Packet, first: Time): Time {
    if p.class_ == Bulk then first + MAX_PACKET_AGE else p.created + MAX_PACKET_AGE
  }

  /** What a numbered datagram keeps from its first transmission on. */
  ghost predicate SameDatagram(p: Packet, q: Packet) {
    q.number == p.number && q.order == p.order && q.class_ == p.class_ && q.payload == p.payload
    && q.created == p.created && q.repairDeadline == p.repairDeadline
  }

  lemma {:induction false} ConfirmFrame(t: State, i: nat, a: Acknowledgement, late: set<nat>)
    requires i < |t.lanes|
    ensures var r := ConfirmReported(t, i, a, late); r.packets == t.packets && t.acked <= r.acked
    ensures var r := ConfirmPrefix(t, i, a); r.packets == t.packets && t.acked <= r.acked
    ensures var r := SettleAll(t, a); r.packets == t.packets && t.acked <= r.acked
  {
    hide Remove, Settle, Numbers, Reported, Prefix, SettledNumbers, Sum, Only;
  }

  lemma {:induction false} ApplyAckFrame(t: State, i: nat, a: Acknowledgement, fresh_: bool, late: set<nat>)
    requires i < |t.lanes|
    ensures var r := ApplyAck(t, i, a, fresh_, late); r.packets == t.packets && t.acked <= r.acked
  {
    hide ConfirmReported, ConfirmPrefix, SettleAll, NoteHigh, NoteThrough, MatchedThrough;
    var t2 := Confirm(t.(lanes := t.lanes[i := NoteHigh(t.lanes[i], a)]), set n | n in t.pending && a.Received(n));
    ConfirmFrame(t2, i, a, late);
    var t3 := ConfirmReported(t2, i, a, late);
    var u3 := t3.(lanes := t3.lanes[i := NoteThrough(t3.lanes[i], a, MatchedThrough(t2.lanes[i], a, fresh_))]);
    ConfirmFrame(u3, i, a, late);
    ConfirmFrame(if fresh_ then ConfirmPrefix(u3, i, a) else t3, i, a, late);
  }

  lemma {:induction false} AckFrame(t: State, path: PathId, f: Ack, late: set<nat>, now: Time)
    ensures var r := ReceiveAck(t, path, f, late, now);
      r.0.packets == t.packets && t.acked <= r.0.acked && !r.1.SentData?
  {
    hide ApplyAck;
    if AckRefusal(t, path, f, now).None? {
      var i := Find(t.lanes, path);
      var l := t.lanes[i].(ackReceipts := t.lanes[i].ackReceipts.Mark(f.revision),
                           ackRevision := Max(f.revision, t.lanes[i].ackRevision));
      ApplyAckFrame(t.(lastTime := now, lanes := t.lanes[i := l]), i, f.body, f.revision > t.lanes[i].ackRevision,
        late);
    }
  }

  /** The steps that transmit a datagram. */
  predicate Sends(op: Op) {
    op.MoveOp? || op.RepairOp? || op.CopyOp? || op.SendOp?
  }

  /** The other steps leave every numbered datagram as it is. */
  lemma {:induction false} QuietFrame(t: State, op: Op)
    requires Enabled(t, op) && !op.SetRemoteOp? && !Sends(op)
    ensures Step(t, op).packets == t.packets && t.acked <= Step(t, op).acked
    ensures Out(t, op).SentData? ==> Out(t, op).data.number == 0
  {
    hide ReceiveAck, Enqueue, ReceiveData, TimeOut, EmitAck, BuildAck, Path, Disable, AckRefusal, AckDue, Sweeps,
         Oldest;
    match op {
      case AckOp(path, f, late, now) => AckFrame(t, path, f, late, now);
      case DropOp(c, now) => PopPackets(t, c);
      case EnqueueOp(payload, flow, ack, age, now) => EnqueueFrame(t, payload, flow, ack, age, now);
      case DataOp(path, data, now) => DataFrame(t, path, data, now);
      case PathOp(id, remoteId, now) => PathFrame(t, id, remoteId, now);
      case DisableOp(id) => PathFrame(t, id, 0, 0);
      case EmitOp(lane, _, now) => EmitFrame(t, lane, now);
      case _ =>
    }
  }

  lemma {:induction false} EnqueueFrame(t: State, payload: seq<Byte>, flow: FlowId, ack: TcpAck, age: nat, now: Time)
    ensures var r := Enqueue(t, payload, flow, ack, age, now); r.packets == t.packets && r.acked == t.acked
  {
    hide FairQueues.Push, FairQueues.Coalesces, FairQueues.Waiting;
  }

  lemma {:induction false} DataFrame(t: State, path: PathId, d: Data, now: Time)
    ensures var r := ReceiveData(t, path, d, now); r.0.packets == t.packets && r.0.acked == t.acked && !r.1.SentData?
  {
    hide DataRefusal, Arrive, ReceiverFor;
  }

  lemma {:induction false} PathFrame(t: State, id: PathId, remoteId: PathId, now: Time)
    ensures Path(t, id, remoteId, now).packets == t.packets && Path(t, id, remoteId, now).acked == t.acked
    ensures Disable(t, id).packets == t.packets && Disable(t, id).acked == t.acked
  {
  }

  lemma {:induction false} EmitFrame(t: State, lane: PathId, now: Time)
    requires lane in t.receivers
    ensures EmitAck(t, lane, now).packets == t.packets && EmitAck(t, lane, now).acked == t.acked
  {
  }

  /** One transmission of the datagram n: the new packets, and what it was allowed by. */
  lemma {:induction false} SendFrame(t: State, op: Op)
    requires Inv(t) && Enabled(t, op) && Sends(op)
    ensures Out(t, op).SentData? && Step(t, op).acked == t.acked
    ensures var n := Out(t, op).data.number;
      && n != 0 && n !in t.acked && n in Step(t, op).packets
      && var p := Step(t, op).packets[n];
      && Step(t, op).packets == t.packets[n := p]
      && p.attempts == Attempts(t, n) + 1
      && At(op) <= p.repairDeadline
      && (n in t.packets ==> SameDatagram(t.packets[n], p))
      && (n !in t.packets ==> p.repairDeadline == RepairLimit(p, At(op)))
  {
    if op.SendOp? {
      SendFirstFrame(t, op.c, op.i, op.now);
    } else {
      assert PacketsOk(t.packets, t.counter);
    }
  }

  lemma {:induction false} SendFirstFrame(t: State, c: Class, i: nat, now: Time)
    requires Inv(t) && Enabled(t, SendOp(c, i, now))
    ensures var n, r := t.counter + 1, Step(t, SendOp(c, i, now));
      && Out(t, SendOp(c, i, now)).SentData? && Out(t, SendOp(c, i, now)).data.number == n
      && n !in t.packets && n !in t.acked && r.acked == t.acked
      && n in r.packets && r.packets == t.packets[n := r.packets[n]] && r.packets[n].attempts == 1
      && now <= r.packets[n].repairDeadline == RepairLimit(r.packets[n], now)
  {
    hide HeadOf, PopQueue, LanesOk, ReceiversOk, ReceiptsOk, Conserved, Admitted;
    KnownNumbers(t);
    PopPackets(t, c);
    RegisterAfterPop(t, c, now);
  }

  lemma {:induction false} KnownNumbers(t: State)
    requires Inv(t)
    ensures t.counter + 1 !in t.packets
  {
  }

  lemma {:induction false} PopPackets(t: State, c: Class)
    requires QueuesValid(t) && HeadOf(t, c).Some?
    ensures var r := PopQueue(t, c);
      r.packets == t.packets && r.counter == t.counter && r.acked == t.acked && r.lanes == t.lanes
      && r.pendingOrder == t.pendingOrder && r.epoch == t.epoch && r.remote == t.remote
      && r.bulkCounter == t.bulkCounter && r.interactiveCounter == t.interactiveCounter
  {
  }

  /** The step does not move the transport to another remote epoch: it is no SetRemote, or one that is refused. */
  predicate Stays(t: State, op: Op) {
    op.SetRemoteOp? ==> !AcceptsRemote(t, op.epoch, op.adopted)
  }

  /** A refused SetRemote changes nothing and sends nothing. */
  lemma {:induction false} RefusedRemote(t: State, op: Op)
    requires Enabled(t, op) && op.SetRemoteOp? && Stays(t, op)
    ensures Step(t, op) == t && Out(t, op) == Quiet
  {
  }

  /** Within a remote epoch datagrams keep their content and acknowledged ones stay acknowledged. */
  lemma {:induction false} StepFrame(t: State, op: Op, n: nat)
    requires Inv(t) && Enabled(t, op) && Stays(t, op)
    ensures t.acked <= Step(t, op).acked
    ensures n in t.packets ==> n in Step(t, op).packets && SameDatagram(t.packets[n], Step(t, op).packets[n])
  {
    hide Inv, Step, Enabled, Out;
    if Sends(op) {
      SendFrame(t, op);
    } else if op.SetRemoteOp? {
      RefusedRemote(t, op);
    } else {
      QuietFrame(t, op);
    }
  }

  /** Each transmission counts, is of an unacknowledged datagram, and keeps its deadline. */
  lemma {:induction false} StepTransmits(t: State, op: Op, n: nat)
    requires Inv(t) && Enabled(t, op) && Stays(t, op)
    ensures Attempts(Step(t, op), n) == Attempts(t, n) + if Transmits(t, op, n) then 1 else 0
    ensures Transmits(t, op, n) ==>
      && n !in t.acked && n in Step(t, op).packets
      && At(op) <= Step(t, op).packets[n].repairDeadline
      && (n !in t.packets ==> Step(t, op).packets[n].repairDeadline == RepairLimit(Step(t, op).packets[n], At(op)))
  {
    hide Inv, Step, Enabled, Out;
    if Sends(op) {
      SendFrame(t, op);
    } else if op.SetRemoteOp? {
      RefusedRemote(t, op);
    } else {
      QuietFrame(t, op);
    }
  }

  /** The times at which a run transmits the datagram numbered n. */
  ghost function TransmissionTimes(t: State, ops: seq<Op>, n: nat): seq<Time>
    requires Executes(t, ops)
    decreases |ops|
  {
    if ops == [] then [] else
      (if Transmits(t, ops[0], n) then [At(ops[0])] else []) + TransmissionTimes(Step(t, ops[0]), ops[1..], n)
  }

  /** The run stays with one remote epoch; SetRemote may be called, as it is with every probe, and is refused. */
  ghost predicate OneEpoch(t: State, ops: seq<Op>)
    requires Executes(t, ops)
    decreases |ops|
  {
    ops == [] || (Stays(t, ops[0]) && OneEpoch(Step(t, ops[0]), ops[1..]))
  }

  lemma {:induction false} TransmissionsCounted(t: State, ops: seq<Op>, n: nat)
    requires Inv(t) && Executes(t, ops) && OneEpoch(t, ops)
    ensures Attempts(Final(t, ops), n) == Attempts(t, n) + |TransmissionTimes(t, ops, n)|
    ensures n in t.packets ==> n in Final(t, ops).packets && SameDatagram(t.packets[n], Final(t, ops).packets[n])
    ensures n in t.acked ==> TransmissionTimes(t, ops, n) == []
    ensures TransmissionTimes(t, ops, n) != [] ==> n in Final(t, ops).packets
    ensures forall k :: 0 <= k < |TransmissionTimes(t, ops, n)| ==>
      TransmissionTimes(t, ops, n)[k] <= Final(t, ops).packets[n].repairDeadline
    decreases |ops|
  {
    hide Inv, Step, Enabled, Transmits, Attempts;
    if ops != [] {
      var t' := Step(t, ops[0]);
      StepKeeps(t, ops[0]);
      StepFrame(t, ops[0], n);
      StepTransmits(t, ops[0], n);
      TransmissionsCounted(t', ops[1..], n);
    }
  }

  /**
   * Bounded repair. Within one remote epoch no datagram is transmitted more than four times, a bulk
   * datagram not later than 250 ms after its first transmission, and a small one not later than
   * 250 ms after it was enqueued.
   */
  lemma {:induction false} BoundedRepair(t: State, ops: seq<Op>, n: nat)
    requires Inv(t) && Executes(t, ops) && OneEpoch(t, ops) && n !in t.packets
    ensures var times := TransmissionTimes(t, ops, n);
      && |times| <= 4
      && (times != [] ==> n in Final(t, ops).packets)
      && forall k :: 0 <= k < |times| ==> times[k] <= RepairLimit(Final(t, ops).packets[n], times[0])
    decreases |ops|
  {
    hide Step, Enabled, Out, Transmits, Inv;
    if ops != [] {
      var t' := Step(t, ops[0]);
      StepKeeps(t, ops[0]);
      StepTransmits(t, ops[0], n);
      TransmissionsCounted(t, ops, n);
      RunKeeps(t, ops);
      AtMostFour(Final(t, ops), n);
      if Transmits(t, ops[0], n) {
        TransmissionsCounted(t', ops[1..], n);
      } else {
        NeverSent(t', n);
        BoundedRepair(t', ops[1..], n);
      }
    }
  }

  lemma {:induction false} AtMostFour(t: State, n: nat)
    requires Inv(t)
    ensures Attempts(t, n) <= 4
  {
  }

  lemma {:induction false} NeverSent(t: State, n: nat)
    requires Inv(t) && Attempts(t, n) == 0
    ensures n !in t.packets
  {
  }

  /** No datagram is transmitted after it is acknowledged. */
  lemma {:induction false} NoRepairAfterAck(t: State, before: seq<Op>, after: seq<Op>, n: nat)
    requires Inv(t) && Executes(t, before) && Executes(Final(t, before), after) && OneEpoch(Final(t, before), after)
    requires n in Final(t, before).acked
    ensures TransmissionTimes(Final(t, before), after, n) == []
  {
    RunKeeps(t, before);
    TransmissionsCounted(Final(t, before), after, n);
  }

  /**
   * SetRemote itself does not refuse the way back: after a change to another boot and its challenge proof,
   * an earlier epoch is accepted again, with empty receipts. That an epoch is never adopted twice rests on
   * the proof alone.
   */
  lemma {:induction false} ReturnRestsOnTheProof(t: State, e: Epoch, f: Epoch)
    requires AcceptsRemote(t, e, true) && f.boot != 0 && f.generation != 0 && f.boot != e.boot
    ensures var u := SetRemote(SetRemote(t, e, true), f, true);
      AcceptsRemote(u, e, true) && !AcceptsRemote(u, e, false) && SetRemote(u, e, true).received == EMPTY
  {
  }

  // ----- traces -----

  /** The frame a step sends, if any. */
  ghost function FrameOf(t: State, op: Op): seq<Output>
    requires Enabled(t, op)
  {
    if Out(t, op).SentData? || Out(t, op).SentAck? then [Out(t, op)] else []
  }

  ghost function Frames(t: State, ops: seq<Op>): seq<Output>
    requires Executes(t, ops)
    decreases |ops|
  {
    if ops == [] then [] else FrameOf(t, ops[0]) + Frames(Step(t, ops[0]), ops[1..])
  }

  /** The moves a Poll is made of. */
  predicate PollMove(op: Op) {
    op.EmitOp? || op.TimeOutOp? || op.PingOp? || op.ForgetOp? || op.ExpireOp? || op.DropOp? || Sends(op)
  }

  /** The moves lead from t to r, all at the same instant, and send these frames. */
  ghost predicate Traced(t: State, r: State, ops: seq<Op>, out: seq<Output>, now: Time) {
    && Executes(t, ops) && Final(t, ops) == r && Frames(t, ops) == out
    && forall i :: 0 <= i < |ops| ==> PollMove(ops[i]) && At(ops[i]) == now
  }

  lemma {:induction false} TraceJoin(
    t: State, r: State, s: State, ops: seq<Op>, more: seq<Op>, out: seq<Output>, out': seq<Output>, now: Time)
    requires Traced(t, r, ops, out, now) && Traced(r, s, more, out', now)
    ensures Traced(t, s, ops + more, out + out', now)
    decreases |ops|
  {
    hide Step, Enabled, Out;
    if ops == [] {
      assert ops + more == more && out + out' == out';
    } else {
      var rest, first := Frames(Step(t, ops[0]), ops[1..]), FrameOf(t, ops[0]);
      TraceJoin(Step(t, ops[0]), r, s, ops[1..], more, rest, out', now);
      assert (ops + more)[0] == ops[0] && (ops + more)[1..] == ops[1..] + more;
      assert first + rest + out' == first + (rest + out');
    }
  }

  lemma {:induction false} TraceOne(r: State, op: Op, now: Time)
    requires Enabled(r, op) && PollMove(op) && At(op) == now
    ensures Traced(r, Step(r, op), [op], FrameOf(r, op), now)
  {
    hide Step, Enabled, Out;
    var ops := [op];
    var rest := ops[1..];
    assert ops[0] == op && rest == [] && FrameOf(r, op) + [] == FrameOf(r, op);
    assert Executes(Step(r, op), rest) && Frames(Step(r, op), rest) == [] && Final(Step(r, op), rest) == Step(r, op);
    assert Executes(r, ops);
    assert Final(r, ops) == Final(Step(r, op), rest);
    assert Frames(r, ops) == FrameOf(r, op) + Frames(Step(r, op), rest);
  }
}
