/** What the lane control decides, and that every move of a poll is one it decided on. */
module Policies {
  import opened Packets
  import opened TransportState
  import opened TransportSteps
  import opened TransportRuns
  import opened DropSchedules

  /**
   * The decisions of the lane control for one poll, which no safety law depends on. They may consult the whole
   * state, which each move of the poll changes.
   */
  datatype Policy = Policy(
    choose: (State, Class, nat, Option<PathId>, Time) -> nat,
    rto: (Lane, Time) -> nat,
    pingInterval: (Lane, Time) -> nat,
    ackInterval: (Receiver, Time) -> nat,
    live: (Lane, Time) -> bool,
    duplicate: (State, PathId, nat) -> bool,
    discovering: (State, Time) -> bool,
    roundTrip: (State, Time) -> nat)

  /** What the two queues that drop early remember. */
  datatype Shedder = Shedder(backlog: Backlog, codel: Codel)

  /** The lane chosen, or the number of lanes when none may send: one that is up and is not to be avoided. */
  function Chosen(policy: Policy, t: State, c: Class, size: nat, avoid: Option<PathId>, now: Time): (i: nat)
    ensures i <= |t.lanes|
    ensures i < |t.lanes| ==> t.lanes[i].Up(now) && (avoid.Some? ==> t.lanes[i].id != avoid.value)
  {
    var i := policy.choose(t, c, size, avoid, now);
    if i < |t.lanes| && t.lanes[i].Up(now) && (avoid.Some? ==> t.lanes[i].id != avoid.value) then i else |t.lanes|
  }

  /** The lane for the first transmission of a queue's head. */
  function ForHead(policy: Policy, t: State, c: Class, p: Packet, now: Time): (i: nat)
    ensures i <= |t.lanes| && (i < |t.lanes| ==> t.lanes[i].Up(now))
  {
    Chosen(policy, t, c, WireBytes(p.payload), None, now)
  }

  /** The timeout of the lane a datagram last used, or the least one if the lane is gone. */
  function TimeoutOf(policy: Policy, t: State, p: Packet, now: Time): nat {
    var previous := Find(t.lanes, p.lastPath);
    if previous < |t.lanes| then policy.rto(t.lanes[previous], now) else MINIMUM_RTO
  }

  /** The lane of a datagram's last transmission is known and no longer live. */
  predicate WentSilent(policy: Policy, t: State, p: Packet, now: Time) {
    var previous := Find(t.lanes, p.lastPath);
    previous < |t.lanes| && !policy.live(t.lanes[previous], now)
  }

  const REPAIR_TAIL: nat := 3

  /** The lane is gone or has shown the last transmission missing: a later one arrived, or too few followed it. */
  predicate ShownMissing(t: State, p: Packet) {
    var i := Find(t.lanes, p.lastPath);
    i == |t.lanes| || t.lanes[i].receivedHigh > p.lastLaneNumber || t.lanes[i].counter - p.lastLaneNumber < REPAIR_TAIL
  }

  /** The lane of a repair: another than the last one, or any once the last transmission is shown missing. */
  function ForRepair(policy: Policy, t: State, p: Packet, now: Time): (i: nat)
    ensures i <= |t.lanes| && (i < |t.lanes| ==> t.lanes[i].Up(now))
  {
    var i := Chosen(policy, t, Bulk, WireBytes(p.payload), Some(p.lastPath), now);
    if i == |t.lanes| && ShownMissing(t, p) then Chosen(policy, t, Bulk, WireBytes(p.payload), None, now) else i
  }

  /** Whether the head of a queue is dropped, and what the queue remembers of it. */
  function Weigh(policy: Policy, w: Shedder, t: State, c: Class, p: Packet, now: Time): (Shedder, bool) {
    if now > p.queueDeadline then (w, true)
    else if c == Realtime then
      var (b, stale) := Look(w.backlog, now - p.created, now);
      (w.(backlog := b), stale)
    else if c == Bulk && !policy.discovering(t, now) && |t.bulk| > 0 then
      var (codel, dropped) := Drop(w.codel, Ask(now, now - p.created, |t.bulk| - 1, policy.roundTrip(t, now)));
      (w.(codel := codel), dropped)
    else (w, false)
  }

  /** The head of a queue may be dropped: it is past its deadline, or late by the measure of its class. */
  predicate Droppable(policy: Policy, t: State, c: Class, p: Packet, now: Time) {
    || now > p.queueDeadline
    || (c == Realtime && now - p.created > REALTIME_QUEUE_TARGET)
    || (&& c == Bulk && !policy.discovering(t, now) && |t.bulk| > 1
        && now - p.created >= Target(policy.roundTrip(t, now)) && ForHead(policy, t, Bulk, p, now) < |t.lanes|)
  }

  lemma {:induction false} DropsDroppable(policy: Policy, w: Shedder, t: State, c: Class, p: Packet, now: Time)
    requires Weigh(policy, w, t, c, p, now).1
    requires c == Bulk && now <= p.queueDeadline ==> ForHead(policy, t, Bulk, p, now) < |t.lanes|
    ensures Droppable(policy, t, c, p, now)
  {
    hide ForHead, Spacing, Interval, Target;
  }

  /** The move is what the policy decides in the state it is made in. */
  ghost predicate Guided(policy: Policy, t: State, op: Op, now: Time)
    requires Enabled(t, op) && PollMove(op)
  {
    match op
    case EmitOp(lane, interval, _) => interval == policy.ackInterval(t.receivers[lane], now)
    case TimeOutOp(i, rto, _) => rto == policy.rto(t.lanes[i], now)
    case PingOp(i, interval, _) => interval == policy.pingInterval(t.lanes[i], now)
    case MoveOp(n, i, _) =>
      var p := t.packets[n];
      WentSilent(policy, t, p, now) && i == Chosen(policy, t, Realtime, WireBytes(p.payload), Some(p.lastPath), now)
    case RepairOp(n, i, rto, _) =>
      rto == TimeoutOf(policy, t, t.packets[n], now) && i == ForRepair(policy, t, t.packets[n], now)
    case SendOp(c, i, _) => i == ForHead(policy, t, c, HeadOf(t, c).value, now)
    case CopyOp(n, i, _) =>
      var p := t.packets[n];
      && n == t.counter && policy.duplicate(t, p.lastPath, WireBytes(p.payload))
      && i == Chosen(policy, t, Realtime, WireBytes(p.payload), Some(p.lastPath), now)
    case DropOp(c, _) => Droppable(policy, t, c, HeadOf(t, c).value, now)
    case _ => true
  }

  ghost predicate GuidedRun(policy: Policy, t: State, ops: seq<Op>, now: Time)
    requires Executes(t, ops) && forall i :: 0 <= i < |ops| ==> PollMove(ops[i])
    decreases |ops|
  {
    ops == [] || (Guided(policy, t, ops[0], now) && GuidedRun(policy, Step(t, ops[0]), ops[1..], now))
  }

  /** The moves lead from t to r, all at the same instant, send these frames, and are what the policy decides. */
  ghost predicate Steered(policy: Policy, t: State, r: State, ops: seq<Op>, out: seq<Output>, now: Time) {
    Traced(t, r, ops, out, now) && GuidedRun(policy, t, ops, now)
  }

  lemma {:induction false} SteerNothing(policy: Policy, t: State, now: Time)
    ensures Steered(policy, t, t, [], [], now)
  {
  }

  lemma {:induction false} SteerOne(policy: Policy, t: State, r: State, op: Op, out: seq<Output>, now: Time)
    requires Traced(t, r, [op], out, now) && Enabled(t, op) && PollMove(op) && Guided(policy, t, op, now)
    ensures Steered(policy, t, r, [op], out, now)
  {
    hide Step, Enabled, Out, Guided;
    var ops := [op];
    assert ops[1..] == [] && GuidedRun(policy, Step(t, op), ops[1..], now);
    assert ops[0] == op && GuidedRun(policy, t, ops, now);
  }

  lemma {:induction false} SteerStep(
    policy: Policy, t: State, r: State, ops: seq<Op>, out: seq<Output>, op: Op, now: Time)
    requires Steered(policy, t, r, ops, out, now)
    requires Enabled(r, op) && PollMove(op) && At(op) == now && Guided(policy, r, op, now)
    ensures Steered(policy, t, Step(r, op), ops + [op], out + FrameOf(r, op), now)
  {
    hide Step, Enabled, Out, Guided, Steered;
    TraceOne(r, op, now);
    SteerOne(policy, r, Step(r, op), op, FrameOf(r, op), now);
    SteerJoin(policy, t, r, Step(r, op), ops, [op], out, FrameOf(r, op), now);
  }

  lemma {:induction false} SteerJoin(
    policy: Policy, t: State, r: State, s: State, ops: seq<Op>, more: seq<Op>, out: seq<Output>, out': seq<Output>,
    now: Time)
    requires Steered(policy, t, r, ops, out, now) && Steered(policy, r, s, more, out', now)
    ensures Steered(policy, t, s, ops + more, out + out', now)
  {
    hide Executes, Final, Frames, PollMove;
    TraceJoin(t, r, s, ops, more, out, out', now);
    GuideJoin(policy, t, r, s, ops, more, out, out', now);
  }

  lemma {:induction false} GuideJoin(
    policy: Policy, t: State, r: State, s: State, ops: seq<Op>, more: seq<Op>, out: seq<Output>, out': seq<Output>,
    now: Time)
    requires Traced(t, r, ops, out, now) && GuidedRun(policy, t, ops, now)
    requires Traced(r, s, more, out', now) && GuidedRun(policy, r, more, now)
    ensures Traced(t, s, ops + more, out + out', now) && GuidedRun(policy, t, ops + more, now)
    decreases |ops|
  {
    hide Step, Enabled, Out, Guided;
    TraceJoin(t, r, s, ops, more, out, out', now);
    if ops == [] {
      assert ops + more == more;
    } else {
      var u := Step(t, ops[0]);
      GuideJoin(policy, u, r, s, ops[1..], more, Frames(u, ops[1..]), out', now);
      assert (ops + more)[0] == ops[0] && (ops + more)[1..] == ops[1..] + more;
    }
  }

  // ----- which heads are dropped -----

  /** What the queues remember after a move. */
  ghost function Noted(policy: Policy, w: Shedder, t: State, op: Op, now: Time): Shedder
    requires Enabled(t, op)
  {
    if op.SendOp? || op.DropOp? then Weigh(policy, w, t, op.c, HeadOf(t, op.c).value, now).0 else w
  }

  /**
   * Along the moves, which take the queues from w to w', a head is dropped exactly when it is past its
   * deadline or the schedule of its class, as it then stands, says so; otherwise it is sent.
   */
  ghost predicate Sheds(policy: Policy, w: Shedder, w': Shedder, t: State, ops: seq<Op>, now: Time)
    requires Executes(t, ops)
    decreases |ops|
  {
    if ops == [] then w' == w else
      var op := ops[0];
      && (op.SendOp? || op.DropOp? ==> (op.DropOp? <==> Weigh(policy, w, t, op.c, HeadOf(t, op.c).value, now).1))
      && Sheds(policy, Noted(policy, w, t, op, now), w', Step(t, op), ops[1..], now)
  }

  /** The moves lead from t to r and the queues from w to w'. */
  ghost predicate Shed(policy: Policy, w: Shedder, w': Shedder, t: State, r: State, ops: seq<Op>, now: Time) {
    Executes(t, ops) && Final(t, ops) == r && Sheds(policy, w, w', t, ops, now)
  }

  lemma {:induction false} ShedNothing(policy: Policy, w: Shedder, t: State, now: Time)
    ensures Shed(policy, w, w, t, t, [], now)
  {
  }

  lemma {:induction false} ShedOne(policy: Policy, w: Shedder, t: State, r: State, op: Op, out: seq<Output>, now: Time)
    requires Enabled(t, op) && Steered(policy, t, r, [op], out, now)
    requires op.SendOp? || op.DropOp? ==> (op.DropOp? <==> Weigh(policy, w, t, op.c, HeadOf(t, op.c).value, now).1)
    ensures Shed(policy, w, Noted(policy, w, t, op, now), t, r, [op], now)
  {
    hide Step, Enabled, Weigh, Out, Guided, Noted;
    var ops := [op];
    assert ops[1..] == [] && ops[0] == op;
    ShedNothing(policy, Noted(policy, w, t, op, now), r, now);
    assert Final(Step(t, op), ops[1..]) == Step(t, op);
  }

  lemma {:induction false} ShedJoin(
    policy: Policy, w: Shedder, w': Shedder, w'': Shedder, t: State, r: State, s: State, ops: seq<Op>,
    more: seq<Op>, now: Time)
    requires Shed(policy, w, w', t, r, ops, now) && Shed(policy, w', w'', r, s, more, now)
    ensures Shed(policy, w, w'', t, s, ops + more, now)
    decreases |ops|
  {
    hide Step, Enabled, Weigh;
    if ops == [] {
      assert ops + more == more;
    } else {
      ShedJoin(policy, Noted(policy, w, t, ops[0], now), w', w'', Step(t, ops[0]), r, s, ops[1..], more, now);
      assert (ops + more)[0] == ops[0] && (ops + more)[1..] == ops[1..] + more;
    }
  }

  /** Before the real-time queue is served: an empty queue ends its backlog. */
  function Before(w: Shedder, t: State, c: Class): Shedder {
    if c == Realtime && HeadOf(t, c).None? then w.(backlog := NO_BACKLOG) else w
  }

  /** After a queue is served: a real-time head that found no lane has been looked at. */
  function Afterwards(policy: Policy, w: Shedder, t: State, c: Class, now: Time): Shedder {
    if c == Realtime && HeadOf(t, c).Some? then Weigh(policy, w, t, c, HeadOf(t, c).value, now).0 else w
  }

  /** The queue is empty, or its head is in time and finds no lane. */
  ghost predicate Held(policy: Policy, w: Shedder, t: State, c: Class, now: Time) {
    HeadOf(t, c).Some? ==>
      var p := HeadOf(t, c).value;
      && now <= p.queueDeadline && ForHead(policy, t, c, p, now) == |t.lanes|
      && (c == Realtime ==> !Weigh(policy, w, t, c, p, now).1)
  }

  // ----- the three classes together -----

  /** The move sends a new datagram or its copy, or drops it. */
  predicate TakesNew(op: Op) {
    op.SendOp? || op.DropOp? || op.CopyOp?
  }

  /** The moves take nothing from the queues and send no copies. */
  ghost predicate TakesNone(ops: seq<Op>) {
    forall i :: 0 <= i < |ops| ==> !TakesNew(ops[i])
  }

  /** The moves are only about new datagrams. */
  ghost predicate TakesAll(ops: seq<Op>) {
    forall i :: 0 <= i < |ops| ==> TakesNew(ops[i])
  }

  /** The moves take nothing from the real-time queue. */
  ghost predicate SparesRealtime(ops: seq<Op>) {
    forall i :: 0 <= i < |ops| && (ops[i].SendOp? || ops[i].DropOp?) ==> ops[i].c != Realtime
  }

  lemma {:induction false} ShedIdle(
    policy: Policy, w: Shedder, t: State, r: State, ops: seq<Op>, out: seq<Output>, now: Time)
    requires Traced(t, r, ops, out, now) && TakesNone(ops)
    ensures Shed(policy, w, w, t, r, ops, now)
    decreases |ops|
  {
    hide Step, Enabled, Out, Weigh;
    if ops != [] {
      var u := Step(t, ops[0]);
      ShedIdle(policy, w, u, r, ops[1..], Frames(u, ops[1..]), now);
    }
  }

  /** The other classes neither read nor change the backlog. */
  lemma {:induction false} WeighAside(policy: Policy, w: Shedder, b: Backlog, t: State, c: Class, p: Packet, now: Time)
    requires c != Realtime
    ensures Weigh(policy, w, t, c, p, now).0.backlog == w.backlog
    ensures var (w', dropped) := Weigh(policy, w, t, c, p, now);
      Weigh(policy, w.(backlog := b), t, c, p, now) == (w'.(backlog := b), dropped)
  {
    hide Drop;
  }

  lemma {:induction false} NotedAside(policy: Policy, w: Shedder, b: Backlog, t: State, op: Op, now: Time)
    requires Enabled(t, op) && (op.SendOp? || op.DropOp? ==> op.c != Realtime)
    ensures Noted(policy, w, t, op, now).backlog == w.backlog
    ensures Noted(policy, w.(backlog := b), t, op, now) == Noted(policy, w, t, op, now).(backlog := b)
    ensures op.SendOp? || op.DropOp? ==>
      var p := HeadOf(t, op.c).value;
      Weigh(policy, w.(backlog := b), t, op.c, p, now).1 == Weigh(policy, w, t, op.c, p, now).1
  {
    hide Weigh, HeadOf;
    if op.SendOp? || op.DropOp? { WeighAside(policy, w, b, t, op.c, HeadOf(t, op.c).value, now); }
  }

  lemma {:induction false} ShedAside(
    policy: Policy, w: Shedder, w': Shedder, b: Backlog, t: State, r: State, ops: seq<Op>, now: Time)
    requires Shed(policy, w, w', t, r, ops, now) && SparesRealtime(ops)
    ensures w'.backlog == w.backlog && Shed(policy, w.(backlog := b), w'.(backlog := b), t, r, ops, now)
    decreases |ops|
  {
    hide Step, Enabled, Weigh;
    if ops != [] {
      var op := ops[0];
      NotedAside(policy, w, b, t, op, now);
      ShedAside(policy, Noted(policy, w, t, op, now), w', b, Step(t, op), r, ops[1..], now);
    }
  }

  /** A final look at the real-time queue, which the other classes leave alone, may be thought to come last. */
  lemma {:induction false} LookLast(
    policy: Policy, w: Shedder, w1: Shedder, w2: Shedder, w3: Shedder,
    t: State, t1: State, r: State, ops: seq<Op>, more: seq<Op>, now: Time)
    requires Shed(policy, w, w1, t, t1, ops, now) && w2 == Afterwards(policy, w1, t1, Realtime, now)
    requires Shed(policy, w2, w3, t1, r, more, now) && SparesRealtime(more)
    requires HeadOf(r, Realtime) == HeadOf(t1, Realtime)
    ensures var last := w3.(backlog := w1.backlog);
      Shed(policy, w, last, t, r, ops + more, now) && w3 == Afterwards(policy, last, r, Realtime, now)
  {
    hide Shed, HeadOf, Look;
    ShedAside(policy, w2, w3, w1.backlog, t1, r, more, now);
    assert w2.(backlog := w1.backlog) == w1;
    ShedJoin(policy, w, w1, w3.(backlog := w1.backlog), t, t1, r, ops, more, now);
  }
}
