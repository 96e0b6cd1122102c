/** What a poll leaves done, and that none of its later moves undoes it. */
module PollLaws {
  import opened Packets
  import FairQueues
  import opened TransportState
  import opened TransportSteps
  import opened TransportLaws
  import opened TransportRuns

  /** Nothing acknowledged and nothing past its deadline is kept for repair. */
  ghost predicate Retired(t: State, now: Time) {
    forall n :: n in t.pendingOrder ==> n !in t.acked && n in t.packets && now <= t.packets[n].repairDeadline
  }

  ghost predicate RecentLane(l: Lane, now: Time) {
    forall s :: s in l.attempts ==> now - l.attempts[s].sent < FEEDBACK_HORIZON
  }

  /** No lane remembers a transmission older than the feedback horizon. */
  ghost predicate Recent(t: State, now: Time) {
    forall i :: 0 <= i < |t.lanes| ==> RecentLane(t.lanes[i], now)
  }

  /** The lane a receiver answers on is up. */
  predicate Answers(lanes: seq<Lane>, r: Receiver, now: Time) {
    Find(lanes, r.path) < |lanes| && lanes[Find(lanes, r.path)].Up(now)
  }

  /** No acknowledgement of a pending datagram is due. */
  ghost predicate Reported(t: State, intervals: (Receiver, Time) -> nat, now: Time) {
    forall k :: k in t.receiverOrder && k in t.receivers ==> ReportedOne(t.lanes, t.receivers[k], intervals, now)
  }

  ghost predicate ReportedOne(lanes: seq<Lane>, r: Receiver, intervals: (Receiver, Time) -> nat, now: Time) {
    r.pending > 0 && Answers(lanes, r, now) ==> !AckDue(r, intervals(r, now), now)
  }

  /** The datagram a queue offers next is not past its deadline. */
  ghost predicate HeadFresh(t: State, c: Class, now: Time) {
    HeadOf(t, c).Some? ==> now <= HeadOf(t, c).value.queueDeadline
  }

  // ----- one move -----

  ghost predicate SameLeases(lanes: seq<Lane>, lanes': seq<Lane>) {
    && |lanes| == |lanes'|
    && forall i :: 0 <= i < |lanes| ==> lanes'[i].id == lanes[i].id && lanes'[i].lease == lanes[i].lease
  }

  lemma {:induction false} FindSame(lanes: seq<Lane>, lanes': seq<Lane>, id: PathId)
    requires SameLeases(lanes, lanes')
    ensures Find(lanes', id) == Find(lanes, id)
  {
    if lanes != [] && lanes[0].id != id { FindSame(lanes[1..], lanes'[1..], id); }
  }

  /** What a move changes: lanes but not their leases, at most one receiver, and transmissions only at this instant. */
  ghost predicate Gentle(t: State, r: State, now: Time) {
    && SameLeases(t.lanes, r.lanes) && r.acked == t.acked && r.receiverOrder == t.receiverOrder
    && (Recent(t, now) ==> Recent(r, now))
    && (forall k :: k in r.receivers ==>
       k in t.receivers && (r.receivers[k] == t.receivers[k] || r.receivers[k].pending == 0))
    && (Retired(t, now) ==> Retired(r, now))
  }

  lemma {:induction false} GentleTrans(t: State, u: State, r: State, now: Time)
    requires Gentle(t, u, now) && Gentle(u, r, now)
    ensures Gentle(t, r, now)
  {
    hide Recent, Retired;
  }

  /** Queues, counts and the time do not matter to it. */
  lemma {:induction false} GentleFields(t: State, r: State, now: Time)
    requires r.lanes == t.lanes && r.acked == t.acked && r.receiverOrder == t.receiverOrder
      && r.receivers == t.receivers
    requires (forall n :: n in r.pendingOrder ==> n in t.pendingOrder) && r.packets == t.packets
    ensures Gentle(t, r, now)
  {
  }

  lemma {:induction false} GentleLane(t: State, i: nat, l: Lane, now: Time)
    requires i < |t.lanes| && l.id == t.lanes[i].id && l.lease == t.lanes[i].lease
      && (RecentLane(t.lanes[i], now) ==> RecentLane(l, now))
    ensures Gentle(t, t.(lanes := t.lanes[i := l], lastTime := now), now)
  {
    hide RecentLane;
  }

  lemma {:induction false} BegunRecent(l: Lane, carried: Carried, bytes: nat, now: Time)
    requires RecentLane(l, now)
    ensures RecentLane(BeginAttempt(l, carried, bytes, now), now)
  {
  }

  lemma {:induction false} TimedOut(l: Lane, rto: nat, now: Time)
    ensures var r := TimeOut(l, rto, now); RecentLane(r, now) && r.id == l.id && r.lease == l.lease
  {
    hide Sum;
  }

  lemma {:induction false} TransmitGentle(t: State, n: nat, i: nat, now: Time)
    requires i < |t.lanes| && n in t.packets
    ensures Gentle(t, Transmit(t, n, i, now).(lastTime := now), now)
  {
    var l, p := t.lanes[i], t.packets[n];
    var b := BeginAttempt(l, Datagram(n, p.class_), WireBytes(p.payload), now);
    if RecentLane(l, now) { BegunRecent(l, Datagram(n, p.class_), WireBytes(p.payload), now); }
    var r := Transmit(t, n, i, now);
    assert r.lanes[i].attempts == b.attempts;
    GentleLane(t, i, r.lanes[i], now);
    var u := t.(lanes := t.lanes[i := r.lanes[i]], lastTime := now);
    assert Gentle(u, r.(lastTime := now), now);
    GentleTrans(t, u, r.(lastTime := now), now);
  }

  lemma {:induction false} EmitGentle(t: State, lane: PathId, now: Time)
    requires lane in t.receivers
    ensures Gentle(t, EmitAck(t, lane, now).(lastTime := now), now)
  {
    hide ReportTop;
  }

  lemma {:induction false} RegisterGentle(t: State, p: Packet, now: Time)
    requires t.counter + 1 !in t.packets && t.counter + 1 !in t.acked && now <= Numbered(t, p, now).repairDeadline
    ensures Gentle(t, Register(t, p, now), now)
  {
    var n, r := t.counter + 1, Register(t, p, now);
    if Retired(t, now) {
      forall m | m in r.pendingOrder ensures m !in r.acked && m in r.packets && now <= r.packets[m].repairDeadline {
        assert m == n || m in t.pendingOrder;
      }
    }
  }

  lemma {:induction false} SendGentle(t: State, c: Class, i: nat, now: Time)
    requires Inv(t) && QueuesValid(t) && i < |t.lanes| && HeadOf(t, c).Some? && now <= HeadOf(t, c).value.queueDeadline
    ensures Gentle(t, SendFirst(PopQueue(t, c), HeadOf(t, c).value, i, now).(lastTime := now), now)
  {
    hide Inv, Gentle, PopQueue, HeadOf, Register, Transmit;
    var u, p := PopQueue(t, c), HeadOf(t, c).value;
    Popped(t, c, now);
    GentleFields(t, u, now);
    RegisterGentle(u, p, now);
    var v := Register(u, p, now);
    RegisteredFields(u, p, now);
    TransmitGentle(v, u.counter + 1, i, now);
    GentleTrans(t, u, v, now);
    GentleTrans(t, v, SendFirst(u, p, i, now).(lastTime := now), now);
  }

  lemma {:induction false} RegisteredFields(t: State, p: Packet, now: Time)
    ensures var r := Register(t, p, now); r.lanes == t.lanes && t.counter + 1 in r.packets && r.counter == t.counter + 1
  {
  }

  lemma {:induction false} Popped(t: State, c: Class, now: Time)
    requires Inv(t) && QueuesValid(t) && HeadOf(t, c).Some? && now <= HeadOf(t, c).value.queueDeadline
    ensures var u := PopQueue(t, c);
      && u.lanes == t.lanes && u.acked == t.acked && u.receiverOrder == t.receiverOrder && u.receivers == t.receivers
      && u.pendingOrder == t.pendingOrder && u.packets == t.packets && u.counter == t.counter
      && u.counter + 1 !in u.packets && u.counter + 1 !in u.acked
         && now <= Numbered(u, HeadOf(t, c).value, now).repairDeadline
  {
    hide FairQueues.Pop, LanesOk, CarriesKnown, ReceiptsOk, ReceiversOk, Conserved, Admitted, PendingOk;
    KnownNumbers(t);
    NotAcked(t);
    PopFrame(t, c);
    PopKeeps(t, c);
  }

  lemma {:induction false} NotAcked(t: State)
    requires Inv(t)
    ensures t.counter + 1 !in t.acked
  {
    hide LanesOk, CarriesKnown, ReceiptsOk, ReceiversOk, Conserved, Admitted, QueuesOk;
    KnownNumbers(t);
  }

  lemma {:induction false} MoveGentle(t: State, op: Op, now: Time)
    requires Inv(t) && Enabled(t, op) && PollMove(op) && At(op) == now
    ensures Gentle(t, Step(t, op), now)
  {
    hide Inv, Gentle, Transmit, SendFirst, EmitAck, TimeOut, PopQueue, HeadOf, BeginAttempt, Oldest, AckDue,
         FairQueues.Valid, Without;
    match op
    case EmitOp(lane, _, _) => EmitGentle(t, lane, now);
    case TimeOutOp(i, rto, _) => TimedOut(t.lanes[i], rto, now); GentleLane(t, i, TimeOut(t.lanes[i], rto, now), now);
    case PingOp(i, _, _) => PingGentle(t, i, now);
    case ForgetOp(n, _) => GentleFields(t, Step(t, op), now);
    case ExpireOp(n, _) => GentleFields(t, Step(t, op), now);
    case MoveOp(n, i, _) => TransmitGentle(t, n, i, now);
    case RepairOp(n, i, _, _) => TransmitGentle(t, n, i, now);
    case CopyOp(n, i, _) => TransmitGentle(t, n, i, now);
    case SendOp(c, i, _) => SendGentle(t, c, i, now);
    case DropOp(c, _) => DropGentle(t, c, now);
  }

  lemma {:induction false} PingGentle(t: State, i: nat, now: Time)
    requires i < |t.lanes|
    ensures Gentle(
      t, t.(lanes := t.lanes[i := BeginAttempt(t.lanes[i], Ping, WIRE_OVERHEAD, now)], lastTime := now), now)
  {
    hide Gentle, RecentLane;
    if RecentLane(t.lanes[i], now) { BegunRecent(t.lanes[i], Ping, WIRE_OVERHEAD, now); }
    GentleLane(t, i, BeginAttempt(t.lanes[i], Ping, WIRE_OVERHEAD, now), now);
  }

  lemma {:induction false} DropGentle(t: State, c: Class, now: Time)
    requires QueuesValid(t) && HeadOf(t, c).Some?
    ensures Gentle(t, PopQueue(t, c).(drops := t.drops + 1, lastTime := now), now)
  {
    hide Gentle, FairQueues.Pop;
    GentleFields(t, PopQueue(t, c).(drops := t.drops + 1, lastTime := now), now);
  }

  lemma {:induction false} GentleReports(t: State, r: State, intervals: (Receiver, Time) -> nat, now: Time)
    requires Gentle(t, r, now) && Reported(t, intervals, now)
    ensures Reported(r, intervals, now)
  {
    hide AckDue, Recent, Retired;
    forall k | k in r.receiverOrder && k in r.receivers ensures ReportedOne(r.lanes, r.receivers[k], intervals, now) {
      FindSame(t.lanes, r.lanes, r.receivers[k].path);
      if r.receivers[k] == t.receivers[k] { assert ReportedOne(t.lanes, t.receivers[k], intervals, now); }
    }
  }

  // ----- all the moves of a poll -----

  /** No later move of a poll undoes what is done. */
  lemma {:induction false} PollKeeps(
    t: State, r: State, ops: seq<Op>, out: seq<Output>, intervals: (Receiver, Time) -> nat, now: Time)
    requires Inv(t) && Traced(t, r, ops, out, now)
    ensures Recent(t, now) ==> Recent(r, now)
    ensures Retired(t, now) ==> Retired(r, now)
    ensures Reported(t, intervals, now) ==> Reported(r, intervals, now)
    decreases |ops|
  {
    hide Inv, Step, Enabled, Out, Recent, Retired, Reported;
    if ops != [] {
      var u := Step(t, ops[0]);
      StepKeeps(t, ops[0]);
      MoveGentle(t, ops[0], now);
      if Reported(t, intervals, now) { GentleReports(t, u, intervals, now); }
      PollKeeps(u, r, ops[1..], Frames(u, ops[1..]), intervals, now);
    }
  }

  /** The move takes a datagram from the queue of a class. */
  predicate Takes(op: Op, c: Class) {
    (op.SendOp? && op.c == c) || (op.DropOp? && op.c == c)
  }

  lemma {:induction false} SameQueues(t: State, r: State, c: Class)
    requires r.realtime == t.realtime && r.small == t.small && r.bulk == t.bulk
    ensures HeadOf(r, c) == HeadOf(t, c)
  {
  }

  lemma {:induction false} MoveKeepsHead(t: State, op: Op, c: Class)
    requires Enabled(t, op) && PollMove(op) && !Takes(op, c)
    ensures HeadOf(Step(t, op), c) == HeadOf(t, c)
  {
    hide Oldest, ReportTop, TimeOut, AckDue, Without, BeginAttempt, FairQueues.Valid, PopQueue, SendFirst, HeadOf;
    if op.SendOp? {
      SendKeepsHead(t, op.c, op.i, op.now, c);
      SameQueues(SendFirst(PopQueue(t, op.c), HeadOf(t, op.c).value, op.i, op.now), Step(t, op), c);
    } else if op.DropOp? {
      PopKeepsHead(t, op.c, c);
      SameQueues(PopQueue(t, op.c), Step(t, op), c);
    } else {
      SameQueues(t, Step(t, op), c);
    }
  }

  lemma {:induction false} PopKeepsHead(t: State, d: Class, c: Class)
    requires QueuesValid(t) && HeadOf(t, d).Some? && c != d
    ensures var u := PopQueue(t, d).(drops := t.drops + 1); HeadOf(u, c) == HeadOf(t, c) == HeadOf(PopQueue(t, d), c)
    ensures PopQueue(t, d).lanes == t.lanes
  {
    hide FairQueues.Pop;
  }

  lemma {:induction false} SendKeepsHead(t: State, d: Class, i: nat, now: Time, c: Class)
    requires QueuesValid(t) && HeadOf(t, d).Some? && c != d && i < |t.lanes|
    ensures PopQueue(t, d).lanes == t.lanes
    ensures HeadOf(SendFirst(PopQueue(t, d), HeadOf(t, d).value, i, now), c) == HeadOf(t, c)
  {
    hide PopQueue, HeadOf, BeginAttempt;
    PopKeepsHead(t, d, c);
    SameQueues(PopQueue(t, d), SendFirst(PopQueue(t, d), HeadOf(t, d).value, i, now), c);
  }

  lemma {:induction false} MovesKeepHead(t: State, r: State, ops: seq<Op>, out: seq<Output>, c: Class, now: Time)
    requires Inv(t) && Traced(t, r, ops, out, now) && forall i :: 0 <= i < |ops| ==> !Takes(ops[i], c)
    ensures HeadOf(r, c) == HeadOf(t, c)
    decreases |ops|
  {
    hide Inv, Step, Enabled, Out, HeadOf;
    if ops != [] {
      MoveKeepsHead(t, ops[0], c);
      StepKeeps(t, ops[0]);
      MovesKeepHead(Step(t, ops[0]), r, ops[1..], Frames(Step(t, ops[0]), ops[1..]), c, now);
    }
  }
}
