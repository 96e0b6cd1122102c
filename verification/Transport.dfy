/** The transport as an object: every call updates its record of fields step by step. */
module Transport {
  import opened Packets
  import opened ReceiptWindows
  import FairQueues
  import opened TransportState
  import opened TransportSteps
  import Laws = TransportLaws
  import Runs = TransportRuns
  import Polls = PollLaws
  import LaneLoops
  import opened DropSchedules
  import opened Policies
  import opened Duties

  class Transport {
    var t: State
    var shedder: Shedder

    ghost predicate Valid()
      reads this
    {
      Laws.Inv(t)
    }

    constructor (epoch: Epoch)
      ensures Valid() && t == New(epoch) && shedder == Shedder(NO_BACKLOG, CODEL_START)
    {
      t, shedder := New(epoch), Shedder(NO_BACKLOG, CODEL_START);
      new;
      Laws.Initially(epoch);
    }

    method SetRemote(next: Epoch, adopted: bool) returns (changed: bool)
      requires Valid()
      modifies this`t
      ensures Valid() && changed == AcceptsRemote(old(t), next, adopted)
      ensures t == TransportState.SetRemote(old(t), next, adopted)
    {
      hide Laws.Inv;
      Laws.SetRemoteKeeps(t, next, adopted);
      if next == t.remote || next.boot == 0 || next.generation == 0 {
        return false;
      }
      if t.remote.boot != 0 {
        if next.boot == t.remote.boot && next.generation <= t.remote.generation {
          return false;
        }
        if next.boot != t.remote.boot && !adopted {
          return false;
        }
      }
      t := t.(remote := next, held := t.held + {next});
      t := t.(expired := t.expired + |t.pending|, pending := {}, pendingOrder := [], packets := map[], acked := {});
      t := t.(counter := 0, bulkCounter := 0, interactiveCounter := 0);
      t := t.(receivers := map[], receiverOrder := [], received := EMPTY, unreported := EMPTY);
      for i := 0 to |t.lanes|
        invariant t == TransportState.SetRemote(old(t), next, adopted).(lanes := t.lanes)
        invariant |t.lanes| == |old(t).lanes|
        invariant forall j :: 0 <= j < |t.lanes| ==>
          t.lanes[j] == if j < i then ResetLane(old(t).lanes[j]) else old(t).lanes[j]
      {
        t := t.(lanes := t.lanes[i := ResetLane(t.lanes[i])]);
      }
      assert t.lanes == ResetLanes(old(t).lanes);
      return true;
    }

    /** Path: leases a lane, new or known. */
    method Path(id: PathId, remoteId: PathId, now: Time) returns (ok: bool)
      requires Valid()
      modifies this`t
      ensures Valid() && ok == (old(t).lastTime <= now)
      ensures t == if now < old(t).lastTime then old(t) else TransportState.Path(old(t), id, remoteId, now)
    {
      hide Laws.Inv;
      if now < t.lastTime {
        return false;
      }
      Laws.PathKeeps(t, id, remoteId, now);
      t := t.(lastTime := now);
      var lanes := t.lanes;
      var i := Find(lanes, id);
      if i == |lanes| {
        lanes := lanes + [NewLane(id, remoteId, now)];
      }
      t := t.(lanes := lanes[i := lanes[i].(lease := now)]);
      assert i == |old(t).lanes| ==> t.lanes == lanes;
      return true;
    }

    method Disable(id: PathId)
      requires Valid()
      modifies this`t
      ensures Valid() && t == TransportState.Disable(old(t), id)
    {
      hide Laws.Inv;
      Laws.DisableKeeps(t, id);
      var i := Find(t.lanes, id);
      if i < |t.lanes| {
        t := t.(lanes := t.lanes[i := t.lanes[i].(lease := 0)]);
      }
    }

    /** Offers a datagram; discovering says that an up lane has not yet seen congestion. */
    method Enqueue(payload: seq<Byte>, flow: FlowId, ack: TcpAck, discovering: bool, now: Time) returns (ok: bool)
      requires Valid()
      modifies this`t
      ensures Valid() && ok == (old(t).lastTime <= now && 1 <= |payload| <= MAX_DATAGRAM)
      ensures var age := QueueAge(shedder.codel, discovering);
        t == if now < old(t).lastTime then old(t) else TransportState.Enqueue(old(t), payload, flow, ack, age, now)
    {
      hide Laws.Inv, FairQueues.Push, FairQueues.Coalesces, FairQueues.Waiting, FairQueues.Count, Classify;
      if now < t.lastTime {
        return false;
      }
      var age := QueueAge(shedder.codel, discovering);
      Laws.EnqueueKeeps(t, payload, flow, ack, age, now);
      t := t.(lastTime := now);
      if |payload| == 0 || |payload| > MAX_DATAGRAM {
        return false;
      }
      var c := Classify(|payload|, flow, ack);
      var limit := MAX_PACKETS;
      if c == Bulk {
        limit := limit - SMALL_PACKET_HEADROOM;
      }
      t := t.(offered := t.offered + 1);
      if Queued(t) + |t.pending| >= limit {
        t := t.(drops := t.drops + 1);
        return true;
      }
      var p := NewPacket(payload, flow, ack, now, now + age);
      if c != Bulk {
        p := p.(queueDeadline := now + MAX_QUEUE_AGE);
      }
      t := Admit(t, p);
      return true;
    }

    method ReceiveData(path: PathId, d: Data, now: Time) returns (out: Output)
      requires Valid()
      modifies this`t
      ensures Valid()
      ensures (t, out) == TransportState.ReceiveData(old(t), path, d, now)
    {
      hide Laws.Inv, Arrive;
      Laws.DataKeeps(t, path, d, now);
      if now < t.lastTime {
        return Refused(BadTime);
      }
      t := t.(lastTime := now);
      if d.src != t.remote || d.attempt == 0 {
        return Refused(BadEpoch);
      }
      var i := Find(t.lanes, path);
      if i == |t.lanes| || !t.lanes[i].Up(now) {
        return Refused(BadPath);
      }
      if d.lane != t.lanes[i].remoteId {
        return Refused(BadLane);
      }
      if |d.payload| > MAX_DATAGRAM {
        return Refused(Malformed);
      }
      if d.dst != t.epoch {
        return Refused(BadEpoch);
      }
      if d.number == 0 && (d.order != Order(false, 0) || d.payload != []) {
        return Refused(Malformed);
      }
      if d.number != 0 && (d.order.index == 0 || d.payload == []) {
        return Refused(Malformed);
      }
      if d.lane in t.receivers && t.receivers[d.lane].path != path {
        return Refused(BadLane);
      }
      if d.lane !in t.receivers {
        t := t.(receivers := t.receivers[d.lane := NewReceiver(path, d.lane, now)],
                receiverOrder := t.receiverOrder + [d.lane]);
      }
      var r := t.receivers[d.lane];
      assert old(t).receivers[d.lane := r] == t.receivers;
      if !r.receipts.Accepts(d.attempt) {
        t := t.(duplicates := t.duplicates + 1);
        return Duplicate;
      }
      t := t.(receivers := t.receivers[d.lane := Arrive(r, d, now)]);
      assert t.receivers == old(t).receivers[d.lane := Arrive(r, d, now)];
      if d.number == 0 {
        return Quiet;
      }
      if !t.received.Accepts(d.number) {
        t := t.(duplicates := t.duplicates + 1);
        return Duplicate;
      }
      t := t.(received := t.received.Mark(d.number), unreported := t.unreported.Mark(d.number));
      return Delivered(d.number, d.order, d.payload);
    }

    /** Takes the pending datagrams an acknowledgement reports off the pending set, in any order. */
    method ConfirmReceipts(a: Acknowledgement)
      modifies this`t
      ensures t == Confirm(old(t), set n | n in old(t).pending && a.Received(n))
    {
      hide Acknowledgement.Received, Confirm;
      var todo := t.pending;
      ghost var got: set<nat> := {};
      ConfirmNone(t);
      while todo != {}
        invariant todo <= old(t).pending && got <= old(t).pending && got !! todo
        invariant forall n :: n in old(t).pending ==> (n in got <==> n !in todo && a.Received(n))
        invariant t == Confirm(old(t), got)
        decreases todo
      {
        var n: nat :| n in todo;
        if a.Received(n) {
          ConfirmOne(old(t), got, n);
          t := t.(acked := t.acked + {n}, pending := t.pending - {n}, confirmed := t.confirmed + 1);
          got := got + {n};
        }
        todo := todo - {n};
      }
      assert got == set n | n in old(t).pending && a.Received(n);
    }

    /** Settles the transmissions of acknowledged datagrams on every lane. */
    method SettleLanes(a: Acknowledgement)
      requires Valid()
      modifies this`t
      ensures t == SettleAll(old(t), a)
    {
      hide Settle, Numbers, Settled, Laws.Inv;
      var numbers: set<nat> := {};
      for i := 0 to |t.lanes|
        invariant t == old(t).(lanes := t.lanes) && |t.lanes| == |old(t).lanes|
        invariant forall j :: 0 <= j < |t.lanes| ==>
          t.lanes[j] == if j < i then Settle(old(t).lanes[j], a, t.acked) else old(t).lanes[j]
        invariant forall n :: n in numbers <==>
          exists j :: 0 <= j < i && n in Numbers(old(t).lanes[j].attempts, Settled(old(t).lanes[j], a, t.acked))
      {
        NumberedLane(old(t), i);
        var l, more := LaneLoops.SettleLane(t.lanes[i], a, t.acked);
        t := t.(lanes := t.lanes[i := l]);
        numbers := numbers + more;
      }
      assert t.lanes == TransportState.SettleLanes(old(t).lanes, a, old(t).acked);
      SettledUnion(old(t).lanes, a, old(t).acked, numbers);
      t := Confirm(t, numbers);
    }

    /** Confirms what the lane bitmap reports, and drops what it has moved past. */
    method Sweep(i: nat, a: Acknowledgement, fresh_: bool) returns (through: nat, ghost late: set<nat>)
      requires Valid() && i < |t.lanes|
      modifies this`t
      ensures Valid() && Sweeps(old(t), old(t).lanes[i], a, late)
      ensures t == ConfirmReported(old(t), i, a, late) && through == MatchedThrough(old(t).lanes[i], a, fresh_)
    {
      hide Laws.Inv, Reported, Passed, Numbers, Sum, Only, Remove, MatchedThrough, Confirm;
      NumberedLane(t, i);
      var l, numbers;
      l, numbers, through, late := LaneLoops.SweepLane(t.acked, t.lanes[i], a, fresh_);
      LaneLoops.SweptIsRemoved(t.lanes[i], Reported(t.lanes[i], a) + late, l.acked);
      Laws.ReportedKeeps(t, i, a, late);
      t := Confirm(t, numbers).(lanes := t.lanes[i := l]);
    }

    /** Confirms the whole prefix when the byte totals are equal. */
    method Prove(i: nat, a: Acknowledgement, through: nat)
      requires Valid() && i < |t.lanes|
      modifies this`t
      ensures Valid() && |t.lanes| == |old(t).lanes|
      ensures t == ConfirmPrefix(old(t).(lanes := old(t).lanes[i := NoteThrough(old(t).lanes[i], a, through)]), i, a)
    {
      hide Laws.Inv, Numbers, Prefix, Sum, Only, Remove, Confirm;
      Laws.ThroughKeeps(t, i, a, through);
      t := t.(lanes := t.lanes[i := NoteThrough(t.lanes[i], a, through)]);
      Laws.PrefixKeeps(t, i, a);
      var l := t.lanes[i];
      if l.receivedThrough > 0 && a.high == l.receivedHigh && l.receivedThrough == a.bytes {
        NumberedLane(t, i);
        var numbers;
        l, numbers := LaneLoops.ConfirmLane(l, a.high);
        t := Confirm(t, numbers).(lanes := t.lanes[i := l]);
      }
    }

    /** Applies an accepted acknowledgement to the lane it arrived on. */
    method ApplyAck(i: nat, a: Acknowledgement, fresh_: bool) returns (ghost late: set<nat>)
      requires Valid() && i < |t.lanes| && a.high <= t.lanes[i].counter
      modifies this`t
      ensures Valid() && Sweeps(old(t), old(t).lanes[i], a, late)
      ensures t == TransportState.ApplyAck(old(t), i, a, fresh_, late)
    {
      hide Laws.Inv, ConfirmReported, ConfirmPrefix, SettleAll, Sweeps, NoteHigh, NoteThrough, MatchedThrough, Confirm;
      Laws.LaneHighKeeps(t, i, a);
      t := t.(lanes := t.lanes[i := NoteHigh(t.lanes[i], a)]);
      Laws.ReceiptsKeep(t, a);
      ConfirmReceipts(a);
      ghost var t2 := t;
      var through;
      through, late := Sweep(i, a, fresh_);
      SweepsSame(old(t), i, a, late);
      if fresh_ {
        Prove(i, a, through);
      }
      SettleLanes(a);
      if fresh_ {
        t := t.(lanes := t.lanes[i := t.lanes[i].(ackedBytes := a.bytes, ackedElapsed := a.elapsed)]);
      }
      Laws.ApplyAckKeeps(old(t), i, a, fresh_, late);
    }

    method ReceiveAck(path: PathId, f: Ack, now: Time) returns (out: Output, ghost late: set<nat>)
      requires Valid()
      modifies this`t
      ensures Valid() && Enabled(old(t), AckOp(path, f, late, now))
      ensures (t, out) == TransportState.ReceiveAck(old(t), path, f, late, now)
    {
      hide Laws.Inv, TransportState.ApplyAck, Sweeps;
      QueuesOfInv(t);
      late := {};
      Laws.AckKeeps(t, path, f, late, now);
      if now < t.lastTime {
        return Refused(BadTime), late;
      }
      t := t.(lastTime := now);
      if f.src != t.remote || f.revision == 0 {
        return Refused(BadEpoch), late;
      }
      var i := Find(t.lanes, path);
      if i == |t.lanes| || !t.lanes[i].Up(now) {
        return Refused(BadPath), late;
      }
      if f.lane != path {
        return Refused(BadLane), late;
      }
      var l, a := t.lanes[i], f.body;
      if a.observed != t.epoch {
        return Refused(BadEpoch), late;
      }
      var fresh_ := f.revision > l.ackRevision;
      if || a.high > l.counter || a.receivedHigh > t.counter
         || (fresh_ && (a.bytes < l.ackedBytes || a.elapsed < l.ackedElapsed))
         || (!fresh_ && (a.bytes > l.ackedBytes || a.elapsed > l.ackedElapsed))
         || !l.ackReceipts.Accepts(f.revision) {
        return Refused(BadAck), late;
      }
      l := l.(ackReceipts := l.ackReceipts.Mark(f.revision), ackRevision := Max(f.revision, l.ackRevision));
      Laws.LaterKeeps(old(t), now);
      Laws.RecordKeeps(t, i, l);
      t := t.(lanes := t.lanes[i := l]);
      late := ApplyAck(i, a, fresh_);
      SweepsRecorded(old(t), i, f, late, now);
      return Quiet, late;
    }

    // ----- polling -----

    /** Sends the acknowledgement of one receiver if it is due. */
    method Report(policy: Policy, lane: PathId, now: Time) returns (out: seq<Output>, ghost ops: seq<Op>)
      requires Valid() && t.lastTime == now
      modifies this`t
      ensures Valid() && t.lastTime == now && Steered(policy, old(t), t, ops, out, now) && TakesNone(ops)
      ensures Done(policy, old(t), t, [Answer(lane)], ops, now)
      ensures if lane in old(t).receivers then Answered(policy, old(t), lane, ops, now) else ops == []
      ensures t.receiverOrder == old(t).receiverOrder && t.lanes == old(t).lanes
      ensures t.pendingOrder == old(t).pendingOrder && t.receivers.Keys == old(t).receivers.Keys
      ensures forall k :: k in t.receivers && k != lane ==> t.receivers[k] == old(t).receivers[k]
      ensures lane in t.receivers ==> Polls.ReportedOne(t.lanes, t.receivers[lane], policy.ackInterval, now)
    {
      hide Laws.Inv, Steered, Runs.Traced, Done, Oldest, ReportTop, BuildAck, EmitAck, AckDue, Answered;
      out, ops := [], [];
      SteerNothing(policy, t, now);
      if lane in t.receivers {
        UnreportedValid(t);
        var r := t.receivers[lane];
        var i := Find(t.lanes, r.path);
        var interval := policy.ackInterval(r, now);
        if i < |t.lanes| && t.lanes[i].Up(now) && (r.pending > 0 || Oldest(t.unreported) != 0)
           && AckDue(r, interval, now) {
          ghost var op := EmitOp(lane, interval, now);
          QueuesOfInv(t);
          assert Enabled(t, op);
          Laws.StepKeeps(t, op);
          Runs.TraceOne(t, op, now);
          SteerOne(policy, t, Step(t, op), op, Runs.FrameOf(t, op), now);
          DutyMet(policy, t, Answer(lane), op, now);
          AnsweredIsOwed(policy, t, lane, [op], now);
          EmitFields(t, lane, now);
          out, ops := [SentAck(BuildAck(t, r, now))], [op];
          t := EmitAck(t, lane, now).(lastTime := now);
          return;
        }
        AnsweredIsOwed(policy, t, lane, [], now);
      }
      DutyVoid(policy, t, Answer(lane), now);
    }

    /** Sends the acknowledgements that are due, in the order the receivers appeared. */
    method PollAcks(policy: Policy, now: Time) returns (out: seq<Output>, ghost ops: seq<Op>)
      requires Valid() && t.lastTime == now
      modifies this`t
      ensures Valid() && t.lastTime == now && Steered(policy, old(t), t, ops, out, now)
      ensures Polls.Reported(t, policy.ackInterval, now) && TakesNone(ops)
      ensures Done(policy, old(t), t, AnswersTo(old(t).receiverOrder), ops, now)
      ensures |t.lanes| == |old(t).lanes| && t.pendingOrder == old(t).pendingOrder
    {
      hide Laws.Inv, Steered, Done, Polls.ReportedOne;
      out, ops := [], [];
      SteerNothing(policy, t, now);
      NoDuty(policy, t, now);
      var order := t.receiverOrder;
      for k := 0 to |order|
        invariant Valid() && t.lastTime == now && t.receiverOrder == order && t.lanes == old(t).lanes
        invariant t.pendingOrder == old(t).pendingOrder
        invariant Steered(policy, old(t), t, ops, out, now) && TakesNone(ops)
        invariant Done(policy, old(t), t, AnswersTo(order[..k]), ops, now)
        invariant forall j :: 0 <= j < k && order[j] in t.receivers ==>
          Polls.ReportedOne(t.lanes, t.receivers[order[j]], policy.ackInterval, now)
      {
        ghost var before, done := t, AnswersTo(order[..k]);
        assert AnswersTo(order[..k + 1]) == done + [Answer(order[k])];
        var frames; ghost var moves;
        frames, moves := Report(policy, order[k], now);
        SteerJoin(policy, old(t), before, t, ops, moves, out, frames, now);
        DutiesJoin(policy, old(t), before, t, done, [Answer(order[k])], ops, moves, now);
        out, ops := out + frames, ops + moves;
      }
      assert order[..|order|] == order;
    }

    /** Times out transmissions and keeps idle lanes alive. */
    method PollLanes(policy: Policy, now: Time) returns (out: seq<Output>, ghost ops: seq<Op>)
      requires Valid() && t.lastTime == now
      modifies this`t
      ensures Valid() && t.lastTime == now && Steered(policy, old(t), t, ops, out, now)
      ensures Polls.Recent(t, now) && TakesNone(ops) && t.pendingOrder == old(t).pendingOrder
      ensures Done(policy, old(t), t, LaneCare(|old(t).lanes|), ops, now)
    {
      hide Laws.Inv, Steered, Done, TimeOut, BeginAttempt, PingData, Polls.RecentLane;
      out, ops := [], [];
      SteerNothing(policy, t, now);
      NoDuty(policy, t, now);
      for i := 0 to |t.lanes|
        invariant Valid() && t.lastTime == now && |t.lanes| == |old(t).lanes| && t.pendingOrder == old(t).pendingOrder
        invariant Steered(policy, old(t), t, ops, out, now) && TakesNone(ops)
        invariant Done(policy, old(t), t, LaneCare(i), ops, now)
        invariant forall j :: 0 <= j < i ==> Polls.RecentLane(t.lanes[j], now)
      {
        ghost var before := t;
        var frames; ghost var moves;
        frames, moves := PollLane(policy, i, now);
        SteerJoin(policy, old(t), before, t, ops, moves, out, frames, now);
        DutiesJoin(policy, old(t), before, t, LaneCare(i), [TimeOuts(i), KeepAlive(i)], ops, moves, now);
        out, ops := out + frames, ops + moves;
      }
    }

    /** Times out the transmissions of one lane, and pings when it is idle. */
    method PollLane(policy: Policy, i: nat, now: Time) returns (out: seq<Output>, ghost ops: seq<Op>)
      requires Valid() && t.lastTime == now && i < |t.lanes|
      modifies this`t
      ensures Valid() && t.lastTime == now && Steered(policy, old(t), t, ops, out, now)
      ensures i < |t.lanes| == |old(t).lanes| && t.lanes == old(t).lanes[i := t.lanes[i]]
      ensures Polls.RecentLane(t.lanes[i], now) && TakesNone(ops) && t.pendingOrder == old(t).pendingOrder
      ensures Done(policy, old(t), t, [TimeOuts(i), KeepAlive(i)], ops, now)
      ensures Tended(policy, old(t), i, ops, now)
    {
      hide Laws.Inv, Steered, Done, Runs.Traced, TimeOut, BeginAttempt, PingData, Polls.RecentLane;
      QueuesOfInv(t);
      NumberedLane(t, i);
      var rto := policy.rto(t.lanes[i], now);
      ghost var op := TimeOutOp(i, rto, now);
      assert Enabled(t, op);
      Laws.StepKeeps(t, op);
      Runs.TraceOne(t, op, now);
      SteerOne(policy, t, Step(t, op), op, [], now);
      DutyMet(policy, t, TimeOuts(i), op, now);
      Polls.TimedOut(t.lanes[i], rto, now);
      var l := LaneLoops.TimeOutLane(t.lanes[i], rto, now);
      out, ops := [], [op];
      t := t.(lanes := t.lanes[i := l], lastTime := now);
      assert t == Step(old(t), op);
      ghost var swept, pings := t, [];
      var interval := policy.pingInterval(l, now);
      if l.Up(now) && now - l.lastTransmit >= interval {
        op := PingOp(i, interval, now);
        QueuesOfInv(t);
        assert Enabled(t, op);
        Laws.StepKeeps(t, op);
        SteerStep(policy, old(t), t, ops, out, op, now);
        DutyMet(policy, t, KeepAlive(i), op, now);
        Polls.BegunRecent(l, Ping, WIRE_OVERHEAD, now);
        out, pings := out + [SentData(PingData(t, i))], [op];
        t := t.(lanes := t.lanes[i := BeginAttempt(l, Ping, WIRE_OVERHEAD, now)], lastTime := now);
      } else {
        DutyVoid(policy, t, KeepAlive(i), now);
        assert ops + [] == ops;
      }
      DutiesJoin(policy, old(t), swept, t, [TimeOuts(i)], [KeepAlive(i)], ops, pings, now);
      assert [TimeOuts(i)] + [KeepAlive(i)] == [TimeOuts(i), KeepAlive(i)];
      ops := ops + pings;
    }

    /** Transmits a numbered datagram again. */
    method Again(ghost policy: Policy, n: nat, i: nat, ghost op: Op, now: Time)
      returns (out: seq<Output>, ghost ops: seq<Op>)
      requires Valid() && t.lastTime == now && Enabled(t, op) && i < |t.lanes|
      requires op == MoveOp(n, i, now) || op == CopyOp(n, i, now)
        || (op.RepairOp? && op.n == n && op.i == i && op.now == now)
      requires Guided(policy, t, op, now)
      modifies this`t
      ensures Valid() && t.lastTime == now && Steered(policy, old(t), t, ops, out, now) && ops == [op]
      ensures Queued(t) == Queued(old(t)) && Undisturbed(old(t), t) && t.pendingOrder == old(t).pendingOrder
      ensures t == Step(old(t), op)
    {
      hide Laws.Inv, Runs.Traced, Steered, Guided;
      Laws.StepKeeps(t, op);
      Runs.TraceOne(t, op, now);
      SteerOne(policy, t, Step(t, op), op, Runs.FrameOf(t, op), now);
      out, ops := [SentData(TransmittedData(t, n, i))], [op];
      t := Transmit(t, n, i, now).(lastTime := now);
    }

    /** Removes a datagram that is acknowledged or past its deadline from the pending order. */
    method Retire(ghost policy: Policy, n: nat, ghost op: Op, now: Time) returns (ghost ops: seq<Op>)
      requires Valid() && t.lastTime == now && Enabled(t, op) && (op == ForgetOp(n, now) || op == ExpireOp(n, now))
      modifies this`t
      ensures Valid() && t.lastTime == now && Steered(policy, old(t), t, ops, [], now)
      ensures Undisturbed(old(t), t) && t.pendingOrder == Without(old(t).pendingOrder, n) && TakesNone(ops)
      ensures ops == [op] && t == Step(old(t), op)
    {
      hide Laws.Inv, Runs.Traced, Steered, Without;
      Laws.StepKeeps(t, op);
      Runs.TraceOne(t, op, now);
      SteerOne(policy, t, Step(t, op), op, [], now);
      ops := [op];
      if n !in t.acked {
        t := t.(expired := t.expired + 1);
      }
      t := t.(pendingOrder := Without(t.pendingOrder, n), pending := t.pending - {n});
    }

    /** Retires one datagram of the pending order, repeats it, or leaves it. */
    method Repair(policy: Policy, n: nat, now: Time) returns (out: seq<Output>, ghost ops: seq<Op>)
      requires Valid() && t.lastTime == now && n in t.pendingOrder && n in t.packets
      modifies this`t
      ensures Valid() && t.lastTime == now && Steered(policy, old(t), t, ops, out, now)
      ensures Undisturbed(old(t), t) && forall m :: m in t.pendingOrder ==> m in old(t).pendingOrder
      ensures n in t.pendingOrder ==> n !in t.acked && n in t.packets && now <= t.packets[n].repairDeadline
      ensures TakesNone(ops) && Attended(policy, old(t), n, ops, now)
      ensures Done(policy, old(t), t, [Attend(n)], ops, now)
    {
      hide Laws.Inv, Steered, Step, Out, Chosen, ForRepair, TimeoutOf, WentSilent, Done, Attended;
      QueuesOfInv(t);
      out, ops := [], [];
      SteerNothing(policy, t, now);
      var p := t.packets[n];
      if n in t.acked {
        DutyMet(policy, t, Attend(n), ForgetOp(n, now), now);
        AttendedIsOwed(policy, t, n, [ForgetOp(n, now)], now);
        ops := Retire(policy, n, ForgetOp(n, now), now);
        return;
      }
      if now > p.repairDeadline {
        DutyMet(policy, t, Attend(n), ExpireOp(n, now), now);
        AttendedIsOwed(policy, t, n, [ExpireOp(n, now)], now);
        ops := Retire(policy, n, ExpireOp(n, now), now);
        return;
      }
      if p.class_ == Realtime && p.attempts == 1 && WentSilent(policy, t, p, now) {
        var i := Chosen(policy, t, Realtime, WireBytes(p.payload), Some(p.lastPath), now);
        if i < |t.lanes| {
          DutyMet(policy, t, Attend(n), MoveOp(n, i, now), now);
          AttendedIsOwed(policy, t, n, [MoveOp(n, i, now)], now);
          out, ops := Again(policy, n, i, MoveOp(n, i, now), now);
          return;
        }
      }
      var rto := TimeoutOf(policy, t, p, now);
      if now - p.lastSent < rto || p.attempts >= 4 {
        DutyVoid(policy, t, Attend(n), now);
        AttendedIsOwed(policy, t, n, [], now);
        return;
      }
      var i := ForRepair(policy, t, p, now);
      if i < |t.lanes| {
        DutyMet(policy, t, Attend(n), RepairOp(n, i, rto, now), now);
        AttendedIsOwed(policy, t, n, [RepairOp(n, i, rto, now)], now);
        out, ops := Again(policy, n, i, RepairOp(n, i, rto, now), now);
      } else {
        DutyVoid(policy, t, Attend(n), now);
        AttendedIsOwed(policy, t, n, [], now);
      }
    }

    /** Retires acknowledged and expired datagrams, and repeats those whose lane went silent or timed out. */
    method PollRepairs(policy: Policy, now: Time) returns (out: seq<Output>, ghost ops: seq<Op>)
      requires Valid() && t.lastTime == now
      modifies this`t
      ensures Valid() && t.lastTime == now && Steered(policy, old(t), t, ops, out, now)
      ensures Polls.Retired(t, now) && TakesNone(ops)
      ensures Done(policy, old(t), t, AttendTo(old(t).pendingOrder), ops, now)
    {
      hide Laws.Inv, Steered, Done;
      out, ops := [], [];
      SteerNothing(policy, t, now);
      NoDuty(policy, t, now);
      var order := t.pendingOrder;
      for k := 0 to |order|
        invariant Valid() && t.lastTime == now
        invariant Steered(policy, old(t), t, ops, out, now) && TakesNone(ops)
        invariant Done(policy, old(t), t, AttendTo(order[..k]), ops, now)
        invariant forall m :: m in t.pendingOrder ==> m in order
        invariant forall j :: 0 <= j < k && order[j] in t.pendingOrder ==> Keepable(t, order[j], now)
      {
        OrderKnown(t);
        ghost var before, done := t, AttendTo(order[..k]);
        assert AttendTo(order[..k + 1]) == done + [Attend(order[k])];
        var frames := []; ghost var moves := [];
        if order[k] in t.pendingOrder {
          frames, moves := Repair(policy, order[k], now);
          SteerJoin(policy, old(t), before, t, ops, moves, out, frames, now);
        } else {
          DutyVoid(policy, t, Attend(order[k]), now);
          assert ops + moves == ops && out + frames == out;
        }
        DutiesJoin(policy, old(t), before, t, done, [Attend(order[k])], ops, moves, now);
        out, ops := out + frames, ops + moves;
      }
      assert order[..|order|] == order;
    }

    /** Discards the datagram at the head of a queue. */
    method DropHead(ghost policy: Policy, c: Class, now: Time) returns (ghost ops: seq<Op>)
      requires Valid() && t.lastTime == now && HeadOf(t, c).Some?
      requires Droppable(policy, t, c, HeadOf(t, c).value, now)
      modifies this`t
      ensures Valid() && t.lastTime == now && Steered(policy, old(t), t, ops, [], now) && ops == [DropOp(c, now)]
      ensures Queued(t) < Queued(old(t)) && Enabled(old(t), ops[0])
    {
      hide Laws.Inv, Runs.Traced, Steered, Droppable, HeadOf, PopQueue;
      QueuesOfInv(t);
      ghost var op := DropOp(c, now);
      Laws.StepKeeps(t, op);
      Runs.TraceOne(t, op, now);
      SteerOne(policy, t, Step(t, op), op, [], now);
      PopCounts(t, c);
      ops := [op];
      t := PopQueue(t, c).(drops := t.drops + 1, lastTime := now);
    }

    /** Transmits the datagram at the head of a queue for the first time. */
    method SendHead(policy: Policy, c: Class, i: nat, now: Time) returns (out: seq<Output>, ghost ops: seq<Op>)
      requires Valid() && t.lastTime == now && i < |t.lanes| && t.lanes[i].Up(now)
      requires HeadOf(t, c).Some? && now <= HeadOf(t, c).value.queueDeadline
      requires i == ForHead(policy, t, c, HeadOf(t, c).value, now)
      modifies this`t
      ensures Valid() && t.lastTime == now && Steered(policy, old(t), t, ops, out, now) && ops == [SendOp(c, i, now)]
      ensures Queued(t) < Queued(old(t)) && SentFirst(old(t), t, c, i, now)
      ensures Enabled(old(t), ops[0]) && t == Step(old(t), ops[0])
    {
      hide Laws.Inv, Runs.Traced, Steered, ForHead, HeadOf, PopQueue, Queued, Register, Transmit;
      QueuesOfInv(t);
      ghost var op := SendOp(c, i, now);
      Laws.StepKeeps(t, op);
      Runs.TraceOne(t, op, now);
      SteerOne(policy, t, Step(t, op), op, Runs.FrameOf(t, op), now);
      PopCounts(t, c);
      SentFirstHolds(t, c, i, now);
      var p := HeadOf(t, c).value;
      ops := [op];
      var u := Register(PopQueue(t, c), p, now);
      RegisterKeeps(PopQueue(t, c), p, i, now);
      out := [SentData(TransmittedData(u, t.counter + 1, i))];
      t := Transmit(u, t.counter + 1, i, now).(lastTime := now);
    }

    /** Sends a copy of the datagram just transmitted, when one is asked for and another lane is to be had. */
    method SendCopy(policy: Policy, ghost before: State, ghost i: nat, now: Time)
      returns (out: seq<Output>, ghost ops: seq<Op>)
      requires Valid() && t.lastTime == now && SentFirst(before, t, Realtime, i, now)
      modifies this`t
      ensures Valid() && t.lastTime == now && Steered(policy, old(t), t, ops, out, now)
      ensures Queued(t) == Queued(old(t)) && (ops == [] ==> t == old(t))
      ensures var p := old(t).packets[old(t).counter];
        var j := Chosen(policy, old(t), Realtime, WireBytes(p.payload), Some(p.lastPath), now);
        ops == if policy.duplicate(old(t), p.lastPath, WireBytes(p.payload)) && j < |old(t).lanes|
               then [CopyOp(old(t).counter, j, now)] else []
      ensures ops != [] ==> Enabled(old(t), ops[0])
    {
      hide Laws.Inv, Steered, Chosen;
      out, ops := [], [];
      SteerNothing(policy, t, now);
      var p := t.packets[t.counter];
      var size := WireBytes(p.payload);
      if policy.duplicate(t, p.lastPath, size) {
        var j := Chosen(policy, t, Realtime, size, Some(p.lastPath), now);
        if j < |t.lanes| {
          CopyEnabled(before, t, i, j, now);
          out, ops := Again(policy, t.counter, j, CopyOp(t.counter, j, now), now);
        }
      }
    }

    /** Sends one small datagram, and for a real-time one a copy when the policy asks for it. */
    method SendOne(policy: Policy, c: Class, i: nat, now: Time) returns (out: seq<Output>, ghost ops: seq<Op>)
      requires Valid() && t.lastTime == now && c != Bulk && i < |t.lanes| && HeadOf(t, c).Some?
      requires now <= HeadOf(t, c).value.queueDeadline && i == ForHead(policy, t, c, HeadOf(t, c).value, now)
      requires !Weigh(policy, shedder, t, c, HeadOf(t, c).value, now).1
      modifies this`t
      ensures Valid() && t.lastTime == now && Steered(policy, old(t), t, ops, out, now)
      ensures Queued(t) < Queued(old(t)) && OnlyTakes(ops, c)
      ensures var w := Weigh(policy, shedder, old(t), c, HeadOf(old(t), c).value, now).0;
        Shed(policy, shedder, w, old(t), t, ops, now)
      ensures Duplicated(policy, old(t), t, ops, now)
    {
      hide Laws.Inv, Steered, Shed, Weigh, ForHead, HeadOf, Queued, Chosen, Duplicated, CopyOwed;
      hide Step, Enabled, Out, WireBytes, CopyLane;
      ghost var w := Weigh(policy, shedder, t, c, HeadOf(t, c).value, now).0;
      out, ops := SendHead(policy, c, i, now);
      ghost var op, sent := ops[0], t;
      ShedOne(policy, shedder, old(t), t, op, out, now);
      var frames := []; ghost var moves := [];
      SteerNothing(policy, t, now);
      if c == Realtime {
        frames, moves := SendCopy(policy, old(t), i, now);
      }
      CopyIsOwed(policy, old(t), sent, c, i, moves, now);
      SteerJoin(policy, old(t), sent, t, ops, moves, out, frames, now);
      if moves == [] {
        ShedNothing(policy, w, t, now);
      } else {
        assert moves == [moves[0]];
        ShedOne(policy, w, sent, t, moves[0], frames, now);
      }
      ShedJoin(policy, shedder, w, w, old(t), sent, t, ops, moves, now);
      DuplicatedSend(policy, old(t), sent, t, op, moves, out + frames, now);
      out, ops := out + frames, ops + moves;
    }

    /** Sends the small datagrams of one class until no lane may take one. */
    method SendSmall(policy: Policy, c: Class, now: Time)
      returns (out: seq<Output>, ghost ops: seq<Op>, ghost last: Shedder)
      requires Valid() && t.lastTime == now && c != Bulk
      modifies this
      ensures Valid() && t.lastTime == now && Steered(policy, old(t), t, ops, out, now) && OnlyTakes(ops, c)
      ensures Shed(policy, Before(old(shedder), old(t), c), last, old(t), t, ops, now)
      ensures Held(policy, last, t, c, now) && shedder == Afterwards(policy, last, t, c, now)
      ensures Duplicated(policy, old(t), t, ops, now)
    {
      hide Laws.Inv, Steered, Shed, ForHead, HeadOf, Queued, SentFirst, Droppable, Look, Duplicated;
      out, ops := [], [];
      SteerNothing(policy, t, now);
      DuplicatedIdle(policy, t, t, [], [], now);
      if c == Realtime && HeadOf(t, c).None? {
        shedder := shedder.(backlog := NO_BACKLOG);
      }
      ghost var first := shedder;
      ShedNothing(policy, first, t, now);
      while HeadOf(t, c).Some?
        invariant Valid() && t.lastTime == now && OnlyTakes(ops, c)
        invariant Steered(policy, old(t), t, ops, out, now) && Shed(policy, first, shedder, old(t), t, ops, now)
        invariant Duplicated(policy, old(t), t, ops, now)
        decreases Queued(t)
      {
        ghost var before, moves := t, [];
        last := shedder;
        var p := HeadOf(t, c).value;
        var (w, dropped) := Weigh(policy, shedder, t, c, p, now);
        var frames := [];
        if dropped {
          DropsDroppable(policy, shedder, t, c, p, now);
          moves := DropHead(policy, c, now);
          ShedOne(policy, shedder, before, t, moves[0], frames, now);
          DuplicatedIdle(policy, before, t, moves, frames, now);
        } else {
          var i := ForHead(policy, t, c, p, now);
          if i == |t.lanes| {
            shedder := w;
            return;
          }
          frames, moves := SendOne(policy, c, i, now);
        }
        SteerJoin(policy, old(t), before, t, ops, moves, out, frames, now);
        ShedJoin(policy, first, shedder, w, old(t), before, t, ops, moves, now);
        DuplicatedJoin(policy, old(t), before, t, ops, moves, now);
        out, ops, shedder := out + frames, ops + moves, w;
      }
      last := shedder;
    }

    /** Sends bulk datagrams until no lane may take one; the drop schedule may discard some. */
    method SendBulk(policy: Policy, now: Time) returns (out: seq<Output>, ghost ops: seq<Op>)
      requires Valid() && t.lastTime == now
      modifies this
      ensures Valid() && t.lastTime == now && Steered(policy, old(t), t, ops, out, now) && OnlyTakes(ops, Bulk)
      ensures Shed(policy, old(shedder), shedder, old(t), t, ops, now) && Held(policy, shedder, t, Bulk, now)
      ensures Duplicated(policy, old(t), t, ops, now)
    {
      hide Laws.Inv, Steered, Shed, ForHead, HeadOf, Queued, SentFirst, Droppable, Drop, Duplicated;
      out, ops := [], [];
      SteerNothing(policy, t, now);
      DuplicatedIdle(policy, t, t, [], [], now);
      ShedNothing(policy, shedder, t, now);
      while HeadOf(t, Bulk).Some?
        invariant Valid() && t.lastTime == now && OnlyTakes(ops, Bulk)
        invariant Steered(policy, old(t), t, ops, out, now) && Shed(policy, old(shedder), shedder, old(t), t, ops, now)
        invariant Duplicated(policy, old(t), t, ops, now)
        decreases Queued(t)
      {
        ghost var before, moves := t, [];
        var p := HeadOf(t, Bulk).value;
        var i := ForHead(policy, t, Bulk, p, now);
        if now <= p.queueDeadline && i == |t.lanes| {
          return;
        }
        var (w, dropped) := Weigh(policy, shedder, t, Bulk, p, now);
        var frames := [];
        if dropped {
          DropsDroppable(policy, shedder, t, Bulk, p, now);
          moves := DropHead(policy, Bulk, now);
        } else {
          frames, moves := SendHead(policy, Bulk, i, now);
        }
        ShedOne(policy, shedder, before, t, moves[0], frames, now);
        DuplicatedIdle(policy, before, t, moves, frames, now);
        SteerJoin(policy, old(t), before, t, ops, moves, out, frames, now);
        ShedJoin(policy, old(shedder), shedder, w, old(t), before, t, ops, moves, now);
        DuplicatedJoin(policy, old(t), before, t, ops, moves, now);
        out, ops, shedder := out + frames, ops + moves, w;
      }
    }

    /**
     * One poll: acknowledgements, timeouts and pings, repairs, then new datagrams by class. A time before
     * the last one is refused. Otherwise the new state and the frames sent are those of a sequence of
     * guarded moves, all at this instant and each what the policy decides where it is made; of the heads
     * taken exactly those are dropped that are past their deadline or that the schedules, carried from the
     * last poll to the next, let give way. First come the acknowledgements, timeouts, pings, repairs and
     * retirements that are owed, each exactly if it is owed in its turn; then new datagrams, class by class until
     * none has a lane, with the copies asked for. The work is then done: no acknowledgement of a pending datagram is
     * due, no transmission is remembered past the feedback horizon, nothing acknowledged or past its repair
     * deadline is kept for repair, no queue offers a datagram past its deadline, and the policy has no lane
     * for the next bulk datagram.
     */
    method Poll(policy: Policy, now: Time)
      returns (ok: bool, out: seq<Output>, ghost ops: seq<Op>, ghost last: Shedder, ghost cuts: Cuts)
      requires Valid()
      modifies this
      ensures Valid() && ok == (old(t).lastTime <= now)
      ensures !ok ==> t == old(t) && shedder == old(shedder) && out == []
      ensures ok ==> Steered(policy, old(t).(lastTime := now), t, ops, out, now)
      ensures ok ==>
        && Shed(policy, Before(old(shedder), old(t), Realtime), last, old(t).(lastTime := now), t, ops, now)
        && shedder == Afterwards(policy, last, t, Realtime, now)
      ensures ok ==>
        && cuts.duties <= |ops| && TakesNone(ops[..cuts.duties]) && TakesAll(ops[cuts.duties..])
        && Runs.Executes(old(t).(lastTime := now), ops[..cuts.duties])
        && Discharged(policy, old(t).(lastTime := now), DutiesOf(old(t)), ops[..cuts.duties], now)
        && Duplicated(policy, old(t).(lastTime := now), t, ops, now)
        && Emptied(policy, old(t).(lastTime := now), t, ops, cuts, now)
      ensures ok ==> Polls.Reported(t, policy.ackInterval, now) && Polls.Recent(t, now) && Polls.Retired(t, now)
      ensures ok ==> Held(policy, shedder, t, Bulk, now) && forall c :: Polls.HeadFresh(t, c, now)
    {
      hide Laws.Inv, Steered, Runs.Traced, Polls.Reported, Polls.Recent, Polls.Retired, HeadOf, Held, Shed, Weigh;
      hide Done, Duplicated, Emptied, Runs.Executes, Runs.Final, Discharged;
      out, ops, last, cuts := [], [], shedder, Cuts(0, 0, 0);
      if now < t.lastTime {
        return false, out, ops, last, cuts;
      }
      Laws.LaterKeeps(t, now);
      t := t.(lastTime := now);
      ghost var start := t;
      Polls.SameQueues(old(t), start, Realtime);
      ghost var before, moves;
      var frames;
      out, ops := PollAcks(policy, now);
      before := t;
      frames, moves := PollLanes(policy, now);
      SteerJoin(policy, start, before, t, ops, moves, out, frames, now);
      SteeredKeeps(policy, before, t, moves, frames, now);
      DutiesJoin(policy, start, before, t, AnswersTo(start.receiverOrder), LaneCare(|start.lanes|), ops, moves, now);
      out, ops, before := out + frames, ops + moves, t;
      frames, moves := PollRepairs(policy, now);
      DutiesJoin(policy, start, before, t, AnswersTo(start.receiverOrder) + LaneCare(|start.lanes|),
                 AttendTo(start.pendingOrder), ops, moves, now);
      SteerJoin(policy, start, before, t, ops, moves, out, frames, now);
      SteeredKeeps(policy, before, t, moves, frames, now);
      out, ops, before := out + frames, ops + moves, t;
      ghost var first := Before(shedder, t, Realtime);
      SteeredIdle(policy, first, start, t, ops, out, now);
      DoneIs(policy, start, t, DutiesOf(start), ops, now);
      DuplicatedIdle(policy, start, t, ops, out, now);
      ghost var owed := ops;
      frames, moves, last, cuts := SendAll(policy, now);
      SteerJoin(policy, start, before, t, ops, moves, out, frames, now);
      SteeredKeeps(policy, before, t, moves, frames, now);
      ShedJoin(policy, first, first, last, start, before, t, ops, moves, now);
      DuplicatedJoin(policy, start, before, t, ops, moves, now);
      EmptiedLater(policy, start, before, t, ops, moves, cuts, now);
      out, ops := out + frames, ops + moves;
      assert ops[..|owed|] == owed && ops[|owed|..] == moves;
      return true, out, ops, last, Cuts(|owed|, |owed| + cuts.realtime, |owed| + cuts.small);
    }

    /** send: new datagrams, class by class. */
    method SendAll(policy: Policy, now: Time)
      returns (out: seq<Output>, ghost ops: seq<Op>, ghost last: Shedder, ghost cuts: Cuts)
      requires Valid() && t.lastTime == now
      modifies this
      ensures Valid() && t.lastTime == now && Steered(policy, old(t), t, ops, out, now)
      ensures Shed(policy, Before(old(shedder), old(t), Realtime), last, old(t), t, ops, now)
      ensures shedder == Afterwards(policy, last, t, Realtime, now)
      ensures TakesAll(ops) && Duplicated(policy, old(t), t, ops, now) && Emptied(policy, old(t), t, ops, cuts, now)
      ensures Held(policy, shedder, t, Bulk, now) && forall c :: Polls.HeadFresh(t, c, now)
    {
      hide Laws.Inv, Steered, Shed, HeadOf, ForHead, Weigh, Duplicated, Emptied;
      var frames;
      ghost var moves, after, small;
      out, ops, last := SendSmall(policy, Realtime, now);
      ghost var w1, w2, before := last, shedder, t;
      frames, moves, small := SendSmall(policy, Small, now);
      ghost var between := t;
      SteeredKeepsHead(policy, before, t, moves, frames, Realtime, now);
      var others;
      others, after := SendBulk(policy, now);
      SteeredKeepsHead(policy, between, t, after, others, Realtime, now);
      SteeredKeepsHead(policy, between, t, after, others, Small, now);
      SteerJoin(policy, before, between, t, moves, after, frames, others, now);
      SteerJoin(policy, old(t), before, t, ops, moves + after, out, frames + others, now);
      ShedJoin(policy, w2, small, shedder, before, between, t, moves, after, now);
      Spares(moves, Small, after);
      ghost var first := Before(old(shedder), old(t), Realtime);
      LookLast(policy, first, w1, w2, shedder, old(t), before, t, ops, moves + after, now);
      last := shedder.(backlog := w1.backlog);
      DuplicatedJoin(policy, before, between, t, moves, after, now);
      DuplicatedJoin(policy, old(t), before, t, ops, moves + after, now);
      SteeredRuns(policy, old(t), before, ops, out, now);
      SteeredRuns(policy, before, between, moves, frames, now);
      SteeredRuns(policy, between, t, after, others, now);
      EmptiedInTurn(policy, old(t), before, between, t, ops, moves, after, now);
      cuts := Cuts(0, |ops|, |ops| + |moves|);
      out, ops := out + (frames + others), ops + (moves + after);
      forall c ensures Polls.HeadFresh(t, c, now) { match c case Realtime => case Small => case Bulk => }
    }
  }

  lemma {:induction false} SteeredKeeps(policy: Policy, t: State, r: State, ops: seq<Op>, out: seq<Output>, now: Time)
    requires Laws.Inv(t) && Steered(policy, t, r, ops, out, now)
    ensures Polls.Recent(t, now) ==> Polls.Recent(r, now)
    ensures Polls.Retired(t, now) ==> Polls.Retired(r, now)
    ensures Polls.Reported(t, policy.ackInterval, now) ==> Polls.Reported(r, policy.ackInterval, now)
  {
    hide Laws.Inv, Runs.Traced, Polls.Reported, Polls.Recent, Polls.Retired;
    Polls.PollKeeps(t, r, ops, out, policy.ackInterval, now);
  }

  /** Moves that take nothing from the queues leave their heads and what the schedules remember. */
  lemma {:induction false} SteeredIdle(
    policy: Policy, w: Shedder, t: State, r: State, ops: seq<Op>, out: seq<Output>, now: Time)
    requires Laws.Inv(t) && Steered(policy, t, r, ops, out, now) && TakesNone(ops)
    ensures Shed(policy, w, w, t, r, ops, now) && HeadOf(r, Realtime) == HeadOf(t, Realtime)
  {
    hide Laws.Inv, Runs.Traced, HeadOf, Shed;
    ShedIdle(policy, w, t, r, ops, out, now);
    Polls.MovesKeepHead(t, r, ops, out, Realtime, now);
  }

  lemma {:induction false} SteeredKeepsHead(
    policy: Policy, t: State, r: State, ops: seq<Op>, out: seq<Output>, c: Class, now: Time)
    requires Laws.Inv(t) && Steered(policy, t, r, ops, out, now) && exists d :: d != c && OnlyTakes(ops, d)
    ensures HeadOf(r, c) == HeadOf(t, c)
  {
    hide Laws.Inv, Runs.Traced, HeadOf;
    Polls.MovesKeepHead(t, r, ops, out, c, now);
  }

  /** Acknowledged datagrams and the deadlines of known ones are as they were. */
  ghost predicate Undisturbed(t: State, r: State) {
    && r.acked == t.acked
    && forall n :: n in t.packets ==> n in r.packets && r.packets[n].repairDeadline == t.packets[n].repairDeadline
  }

  /** The datagram may stay in the pending order. */
  ghost predicate Keepable(t: State, n: nat, now: Time) {
    n !in t.acked && n in t.packets && now <= t.packets[n].repairDeadline
  }

  lemma {:induction false} OrderKnown(t: State)
    requires Laws.Inv(t)
    ensures forall n :: n in t.pendingOrder ==> n in t.packets
  {
  }

  /** The moves take datagrams from the queue of one class only. */
  ghost predicate OnlyTakes(ops: seq<Op>, c: Class) {
    TakesAll(ops) && forall i, d :: 0 <= i < |ops| && d != c ==> !Polls.Takes(ops[i], d)
  }

  /** Small and bulk datagrams are not real-time ones. */
  lemma {:induction false} Spares(ops: seq<Op>, c: Class, more: seq<Op>)
    requires c != Realtime && OnlyTakes(ops, c) && OnlyTakes(more, Bulk)
    ensures SparesRealtime(ops + more)
  {
    forall i | 0 <= i < |ops + more| ensures !Polls.Takes((ops + more)[i], Realtime) {
      assert if i < |ops| then (ops + more)[i] == ops[i] else (ops + more)[i] == more[i - |ops|];
    }
  }

  /** r is t after a first transmission on lane i. */
  ghost predicate SentFirst(t: State, r: State, c: Class, i: nat, now: Time) {
    && r.counter == t.counter + 1 && r.counter in r.packets && r.counter in r.pendingOrder && r.counter !in r.acked
    && i < |t.lanes| == |r.lanes|
    && (forall j :: 0 <= j < |t.lanes| ==> r.lanes[j].id == t.lanes[j].id && r.lanes[j].lease == t.lanes[j].lease)
    && var p := r.packets[r.counter];
       && HeadOf(t, c).Some? && p.payload == HeadOf(t, c).value.payload
       && p.class_ == c && p.attempts == 1 && p.lastSent == now && p.lastPath == t.lanes[i].id
       && now <= p.repairDeadline
  }

  lemma {:induction false} SentFirstHolds(t: State, c: Class, i: nat, now: Time)
    requires Laws.Inv(t) && Enabled(t, SendOp(c, i, now))
    ensures SentFirst(t, Step(t, SendOp(c, i, now)), c, i, now)
  {
    hide HeadOf, PopQueue, Laws.LanesOk, Laws.ReceiversOk, Laws.ReceiptsOk, Laws.Conserved, Laws.Admitted,
         Laws.QueuesOk;
    Runs.SendFirstFrame(t, c, i, now);
    Runs.PopPackets(t, c);
    Laws.RegisterAfterPop(t, c, now);
  }

  /** What SendCopy sends is what the first transmission calls for. */
  lemma {:induction false} CopyIsOwed(
    policy: Policy, t: State, r: State, c: Class, i: nat, moves: seq<Op>, now: Time)
    requires SentFirst(t, r, c, i, now)
    requires var p := r.packets[r.counter];
      var j := Chosen(policy, r, Realtime, WireBytes(p.payload), Some(p.lastPath), now);
      moves == if c == Realtime && policy.duplicate(r, p.lastPath, WireBytes(p.payload)) && j < |r.lanes|
               then [CopyOp(r.counter, j, now)] else []
    ensures moves == match CopyOwed(policy, SendOp(c, i, now), r, now) case None => [] case Some(copy) => [copy]
  {
    hide Chosen;
  }

  /** The copy of a real-time datagram goes out with the original, on another lane. */
  lemma {:induction false} CopyEnabled(t: State, r: State, i: nat, j: nat, now: Time)
    requires SentFirst(t, r, Realtime, i, now) && Laws.Inv(r) && r.lastTime == now
    requires j < |r.lanes| && r.lanes[j].Up(now) && r.lanes[j].id != t.lanes[i].id
    ensures Enabled(r, CopyOp(r.counter, j, now))
  {
    hide Laws.Inv;
    QueuesOfInv(r);
  }

  lemma {:induction false} PopCounts(t: State, c: Class)
    requires Laws.Inv(t) && HeadOf(t, c).Some? && QueuesValid(t)
    ensures Queued(PopQueue(t, c)) == Queued(t) - 1
    ensures PopQueue(t, c).counter == t.counter && PopQueue(t, c).lanes == t.lanes
  {
    Laws.PopKeeps(t, c);
    Runs.PopPackets(t, c);
  }

  lemma {:induction false} RegisterKeeps(t: State, p: Packet, i: nat, now: Time)
    requires i < |t.lanes|
    ensures var r := Register(t, p, now);
      && r.lanes == t.lanes && t.counter + 1 in r.packets
      && Queued(Transmit(r, t.counter + 1, i, now).(lastTime := now)) == Queued(t)
  {
  }

  lemma {:induction false} EmitFields(t: State, lane: PathId, now: Time)
    requires lane in t.receivers
    ensures EmitAck(t, lane, now).receiverOrder == t.receiverOrder
    ensures EmitAck(t, lane, now).pendingOrder == t.pendingOrder
    ensures EmitAck(t, lane, now).lanes == t.lanes && EmitAck(t, lane, now).receivers.Keys == t.receivers.Keys
    ensures EmitAck(t, lane, now).receivers[lane].pending == 0
    ensures forall k :: k in t.receivers && k != lane ==> EmitAck(t, lane, now).receivers[k] == t.receivers[k]
  {
  }

  lemma {:induction false} UnreportedValid(t: State)
    requires Laws.Inv(t)
    ensures t.unreported.Valid() && 0 !in t.unreported.marks
  {
    assert Laws.ReceiptsOk(t.received, t.unreported);
  }

  lemma {:induction false} QueuesOfInv(t: State)
    requires Laws.Inv(t)
    ensures QueuesValid(t)
  {
    assert Laws.QueuesOk(t.realtime, t.small, t.bulk);
  }

  lemma {:induction false} SweepsRecorded(t: State, i: nat, f: Ack, late: set<nat>, now: Time)
    requires i < |t.lanes|
    requires var l := t.lanes[i].(ackReceipts := t.lanes[i].ackReceipts.Mark(f.revision),
      ackRevision := Max(f.revision, t.lanes[i].ackRevision));
      Sweeps(t.(lastTime := now, lanes := t.lanes[i := l]), l, f.body, late)
    ensures Sweeps(t, t.lanes[i], f.body, late)
  {
    hide Numbers;
    var l := t.lanes[i].(ackReceipts := t.lanes[i].ackReceipts.Mark(f.revision),
      ackRevision := Max(f.revision, t.lanes[i].ackRevision));
    assert Reported(l, f.body) == Reported(t.lanes[i], f.body);
    assert forall g: set<nat> :: Passed(l, f.body, g) == Passed(t.lanes[i], f.body, g);
  }

  lemma {:induction false} ConfirmNone(t: State)
    ensures Confirm(t, {}) == t
  {
    assert t.pending * {} == {} && t.pending - {} == t.pending && t.acked + {} == t.acked;
  }

  lemma {:induction false} ConfirmOne(t: State, got: set<nat>, n: nat)
    requires n in t.pending && n !in got
    ensures var r := Confirm(t, got);
      Confirm(t, got + {n}) == r.(acked := r.acked + {n}, pending := r.pending - {n}, confirmed := r.confirmed + 1)
  {
    assert t.pending * (got + {n}) == t.pending * got + {n};
    assert t.pending - (got + {n}) == t.pending - got - {n};
    assert t.acked + (got + {n}) == t.acked + got + {n};
  }

  lemma {:induction false} NumberedLane(t: State, i: nat)
    requires Laws.Inv(t) && i < |t.lanes|
    ensures LaneLoops.Numbered(t.lanes[i])
  {
    assert Laws.LanesOk(t.lanes);
  }

  /** The sweep may be described before or after the reported receipts are confirmed. */
  lemma {:induction false} SweepsSame(t: State, i: nat, a: Acknowledgement, late: set<nat>)
    requires i < |t.lanes|
    requires var t1 := t.(lanes := t.lanes[i := NoteHigh(t.lanes[i], a)]);
      var t2 := Confirm(t1, set n | n in t1.pending && a.Received(n));
      Sweeps(t2, t2.lanes[i], a, late)
    ensures Sweeps(t, t.lanes[i], a, late)
  {
    hide Numbers;
    assert Reported(NoteHigh(t.lanes[i], a), a) == Reported(t.lanes[i], a);
  }

  lemma {:induction false} SettledUnion(lanes: seq<Lane>, a: Acknowledgement, acked: set<nat>, numbers: set<nat>)
    requires forall n :: n in numbers <==>
      exists j :: 0 <= j < |lanes| && n in Numbers(lanes[j].attempts, Settled(lanes[j], a, acked))
    ensures numbers == SettledNumbers(lanes, a, acked)
  {
    forall n ensures n in numbers <==> n in SettledNumbers(lanes, a, acked) {
      if n in numbers {
        var j :| 0 <= j < |lanes| && n in Numbers(lanes[j].attempts, Settled(lanes[j], a, acked));
        var s :| s in lanes[j].attempts && s in Settled(lanes[j], a, acked) && lanes[j].attempts[s].carried.Datagram?
              && lanes[j].attempts[s].carried.number == n;
        assert 0 <= j < |lanes| && s in Settled(lanes[j], a, acked);
      }
      if n in SettledNumbers(lanes, a, acked) {
        var j, s :| 0 <= j < |lanes| && s in Settled(lanes[j], a, acked) && lanes[j].attempts[s].carried.number == n;
        assert n in Numbers(lanes[j].attempts, Settled(lanes[j], a, acked));
      }
    }
  }
}
