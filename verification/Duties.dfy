/** What a poll owes in a state, and that its moves discharge all of it and nothing else. */
module Duties {
  import opened Packets
  import opened TransportState
  import opened TransportSteps
  import opened TransportRuns
  import opened Policies
  import Polls = PollLaws

  // ----- acknowledgements, timeouts, pings and repairs -----

  /** One thing a poll looks at, in this order: receivers, lanes twice, datagrams of the pending order. */
  datatype Duty = Answer(lane: PathId) | TimeOuts(i: nat) | KeepAlive(i: nat) | Attend(n: nat)

  /** The receiver has something to report and its acknowledgement is due. */
  predicate AckOwed(policy: Policy, t: State, lane: PathId, now: Time) {
    && lane in t.receivers && Polls.Answers(t.lanes, t.receivers[lane], now)
    && (t.receivers[lane].pending > 0 || Oldest(t.unreported) != 0)
    && AckDue(t.receivers[lane], policy.ackInterval(t.receivers[lane], now), now)
  }

  /** The lane is up and has been idle for its interval. */
  predicate PingOwed(policy: Policy, t: State, i: nat, now: Time) {
    i < |t.lanes| && t.lanes[i].Up(now) && now - t.lanes[i].lastTransmit >= policy.pingInterval(t.lanes[i], now)
  }

  /** A datagram that is still to be delivered: not acknowledged and within its deadline. */
  predicate Kept(t: State, n: nat, now: Time) {
    n in t.pendingOrder && n in t.packets && n !in t.acked && now <= t.packets[n].repairDeadline
  }

  /** The lane a real-time datagram moves to, off the one that went silent after its only transmission. */
  function MoveLane(policy: Policy, t: State, n: nat, now: Time): (i: nat)
    requires n in t.packets
    ensures i <= |t.lanes|
  {
    var p := t.packets[n];
    if p.class_ == Realtime && p.attempts == 1 && WentSilent(policy, t, p, now)
    then Chosen(policy, t, Realtime, WireBytes(p.payload), Some(p.lastPath), now) else |t.lanes|
  }

  /** The lane a datagram is repeated on after its timeout, at most three times. */
  function RepairLane(policy: Policy, t: State, n: nat, now: Time): (i: nat)
    requires n in t.packets
    ensures i <= |t.lanes|
  {
    var p := t.packets[n];
    if now - p.lastSent >= TimeoutOf(policy, t, p, now) && p.attempts < 4
    then ForRepair(policy, t, p, now) else |t.lanes|
  }

  /** The move a duty asks for in a state, if any. */
  function Owed(policy: Policy, t: State, d: Duty, now: Time): Option<Op> {
    match d
    case Answer(lane) =>
      if AckOwed(policy, t, lane, now)
      then Some(EmitOp(lane, policy.ackInterval(t.receivers[lane], now), now)) else None
    case TimeOuts(i) => if i < |t.lanes| then Some(TimeOutOp(i, policy.rto(t.lanes[i], now), now)) else None
    case KeepAlive(i) =>
      if PingOwed(policy, t, i, now) then Some(PingOp(i, policy.pingInterval(t.lanes[i], now), now)) else None
    case Attend(n) =>
      if n !in t.pendingOrder || n !in t.packets then None
      else if n in t.acked then Some(ForgetOp(n, now))
      else if now > t.packets[n].repairDeadline then Some(ExpireOp(n, now))
      else if MoveLane(policy, t, n, now) < |t.lanes| then Some(MoveOp(n, MoveLane(policy, t, n, now), now))
      else if RepairLane(policy, t, n, now) < |t.lanes|
      then Some(RepairOp(n, RepairLane(policy, t, n, now), TimeoutOf(policy, t, t.packets[n], now), now))
      else None
  }

  /** The moves are those the duties ask for, one after the other, each in the state it is made in. */
  ghost predicate Discharged(policy: Policy, t: State, duties: seq<Duty>, ops: seq<Op>, now: Time)
    requires Executes(t, ops)
    decreases |duties|
  {
    if duties == [] then ops == []
    else if Owed(policy, t, duties[0], now).None? then Discharged(policy, t, duties[1..], ops, now)
    else
      && ops != [] && ops[0] == Owed(policy, t, duties[0], now).value
      && Discharged(policy, Step(t, ops[0]), duties[1..], ops[1..], now)
  }

  /** The moves lead from t to r and discharge the duties. */
  ghost predicate Done(policy: Policy, t: State, r: State, duties: seq<Duty>, ops: seq<Op>, now: Time) {
    Executes(t, ops) && Final(t, ops) == r && Discharged(policy, t, duties, ops, now)
  }

  lemma {:induction false} DoneIs(policy: Policy, t: State, r: State, duties: seq<Duty>, ops: seq<Op>, now: Time)
    requires Done(policy, t, r, duties, ops, now)
    ensures Executes(t, ops) && Final(t, ops) == r && Discharged(policy, t, duties, ops, now)
  {
    hide Executes, Final, Discharged;
  }

  lemma {:induction false} NoDuty(policy: Policy, t: State, now: Time)
    ensures Done(policy, t, t, [], [], now)
  {
  }

  lemma {:induction false} DutyVoid(policy: Policy, t: State, d: Duty, now: Time)
    requires Owed(policy, t, d, now).None?
    ensures Done(policy, t, t, [d], [], now)
  {
    hide Owed;
    var duties := [d];
    NoDuty(policy, t, now);
    assert duties[1..] == [] && duties[0] == d && Discharged(policy, t, duties[1..], [], now);
    assert Discharged(policy, t, duties, [], now);
  }

  lemma {:induction false} DutyMet(policy: Policy, t: State, d: Duty, op: Op, now: Time)
    requires Owed(policy, t, d, now) == Some(op) && Enabled(t, op)
    ensures Done(policy, t, Step(t, op), [d], [op], now)
  {
    hide Step, Enabled, Owed;
    var duties, ops := [d], [op];
    assert duties[1..] == [] && duties[0] == d && ops[0] == op && ops[1..] == [];
    assert Executes(Step(t, op), ops[1..]) && Discharged(policy, Step(t, op), duties[1..], ops[1..], now);
    assert Executes(t, ops) && Final(t, ops) == Final(Step(t, op), ops[1..]);
  }

  lemma {:induction false} DutiesJoin(
    policy: Policy, t: State, r: State, s: State, duties: seq<Duty>, more: seq<Duty>, ops: seq<Op>, ops': seq<Op>,
    now: Time)
    requires Done(policy, t, r, duties, ops, now) && Done(policy, r, s, more, ops', now)
    ensures Done(policy, t, s, duties + more, ops + ops', now)
    decreases |duties|
  {
    hide Step, Enabled, Owed;
    if duties == [] {
      assert duties + more == more && ops + ops' == ops';
    } else {
      assert (duties + more)[0] == duties[0] && (duties + more)[1..] == duties[1..] + more;
      if Owed(policy, t, duties[0], now).None? {
        DutiesJoin(policy, t, r, s, duties[1..], more, ops, ops', now);
      } else {
        DutiesJoin(policy, Step(t, ops[0]), r, s, duties[1..], more, ops[1..], ops', now);
        assert (ops + ops')[0] == ops[0] && (ops + ops')[1..] == ops[1..] + ops';
      }
    }
  }

  /**
   * What becomes of a datagram of the pending order. It is forgotten if it is acknowledged, and expires past its
   * deadline. Otherwise it moves to another lane exactly if it is real-time, was sent once, and the lane it
   * went on is silent; else it is repeated exactly if its lane's timeout has passed since it was last sent, fewer
   * than four times so far, and a lane is chosen: one other than the last, or any once the last transmission
   * is shown missing. Else nothing is done.
   */
  ghost predicate Attended(policy: Policy, t: State, n: nat, ops: seq<Op>, now: Time)
    requires n in t.packets
  {
    var p, lanes := t.packets[n], |t.lanes|;
    var last := Find(t.lanes, p.lastPath);
    var timeout := if last < lanes then policy.rto(t.lanes[last], now) else MINIMUM_RTO;
    var elsewhere := Chosen(policy, t, Realtime, WireBytes(p.payload), Some(p.lastPath), now);
    var other := Chosen(policy, t, Bulk, WireBytes(p.payload), Some(p.lastPath), now);
    var any := Chosen(policy, t, Bulk, WireBytes(p.payload), None, now);
    var missing := last == lanes || t.lanes[last].receivedHigh > p.lastLaneNumber
                   || t.lanes[last].counter - p.lastLaneNumber < REPAIR_TAIL;
    var moves := p.class_ == Realtime && p.attempts == 1 && last < lanes && !policy.live(t.lanes[last], now)
                 && elsewhere < lanes;
    var repeats := now - p.lastSent >= timeout && p.attempts < 4 && (other < lanes || (missing && any < lanes));
    if n in t.acked then ops == [ForgetOp(n, now)]
    else if now > p.repairDeadline then ops == [ExpireOp(n, now)]
    else
      && (moves ==> ops == [MoveOp(n, elsewhere, now)])
      && (!moves && repeats ==> ops == [RepairOp(n, if other < lanes then other else any, timeout, now)])
      && (!moves && !repeats ==> ops == [])
  }

  lemma {:induction false} AttendedIsOwed(policy: Policy, t: State, n: nat, ops: seq<Op>, now: Time)
    requires n in t.packets && n in t.pendingOrder
    requires ops == match Owed(policy, t, Attend(n), now) case None => [] case Some(op) => [op]
    ensures Attended(policy, t, n, ops, now)
  {
    hide Chosen;
  }

  /**
   * What happens to a receiver, exactly: one acknowledgement goes out if the lane it answers on holds a lease of the
   * last second, something is unreported, and 64 datagrams or the interval have gone by since the last one.
   */
  ghost predicate Answered(policy: Policy, t: State, lane: PathId, ops: seq<Op>, now: Time) {
    lane in t.receivers
    && var r, i := t.receivers[lane], Find(t.lanes, t.receivers[lane].path);
      ops ==
        if && i < |t.lanes| && t.lanes[i].lease != 0 && now < t.lanes[i].lease + 1000 * MILLISECOND
           && (r.pending > 0 || t.unreported.marks != {})
           && (r.pending >= 64 || now >= r.ackAt + policy.ackInterval(r, now))
        then [EmitOp(lane, policy.ackInterval(r, now), now)] else []
  }

  lemma {:induction false} AnsweredIsOwed(policy: Policy, t: State, lane: PathId, ops: seq<Op>, now: Time)
    requires lane in t.receivers && t.unreported.Valid() && 0 !in t.unreported.marks
    requires ops == match Owed(policy, t, Answer(lane), now) case None => [] case Some(op) => [op]
    ensures Answered(policy, t, lane, ops, now)
  {
    assert t.unreported.IsOldest(Oldest(t.unreported));
  }

  /**
   * What happens to a lane, exactly: its transmissions are timed out, and a ping goes out if it holds a lease of the
   * last second and nothing has gone out on it for its interval.
   */
  ghost predicate Tended(policy: Policy, t: State, i: nat, ops: seq<Op>, now: Time)
    requires i < |t.lanes|
  {
    var rto := policy.rto(t.lanes[i], now);
    var l := TimeOut(t.lanes[i], rto, now);
    var interval := policy.pingInterval(l, now);
    ops == [TimeOutOp(i, rto, now)]
      + if l.lease != 0 && now < l.lease + 1000 * MILLISECOND && now >= l.lastTransmit + interval
        then [PingOp(i, interval, now)] else []
  }

  function AnswersTo(order: seq<PathId>): (duties: seq<Duty>)
    ensures |duties| == |order| && forall k :: 0 <= k < |order| ==> duties[k] == Answer(order[k])
  {
    seq(|order|, k requires 0 <= k < |order| => Answer(order[k]))
  }

  function LaneCare(n: nat): seq<Duty> {
    if n == 0 then [] else LaneCare(n - 1) + [TimeOuts(n - 1), KeepAlive(n - 1)]
  }

  function AttendTo(order: seq<nat>): (duties: seq<Duty>)
    ensures |duties| == |order| && forall k :: 0 <= k < |order| ==> duties[k] == Attend(order[k])
  {
    seq(|order|, k requires 0 <= k < |order| => Attend(order[k]))
  }

  /** All that a poll owes before it sends new datagrams. */
  function DutiesOf(t: State): seq<Duty> {
    AnswersTo(t.receiverOrder) + LaneCare(|t.lanes|) + AttendTo(t.pendingOrder)
  }

  // ----- copies of real-time datagrams -----

  /** The lane of the copy of the datagram just sent, the number of lanes when none is to be sent. */
  function CopyLane(policy: Policy, t: State, now: Time): (i: nat)
    requires t.counter in t.packets
    ensures i <= |t.lanes|
  {
    var p := t.packets[t.counter];
    if policy.duplicate(t, p.lastPath, WireBytes(p.payload))
    then Chosen(policy, t, Realtime, WireBytes(p.payload), Some(p.lastPath), now) else |t.lanes|
  }

  /** The copy that a move which led to u calls for. */
  function CopyOwed(policy: Policy, op: Op, u: State, now: Time): Option<Op> {
    if op.SendOp? && op.c == Realtime && u.counter in u.packets && CopyLane(policy, u, now) < |u.lanes|
    then Some(CopyOp(u.counter, CopyLane(policy, u, now), now)) else None
  }

  /**
   * A first transmission of a real-time datagram is followed by its copy exactly if one is asked for and has a
   * lane; no other copies are sent. owed is the copy the moves begin with.
   */
  ghost predicate Copied(policy: Policy, t: State, ops: seq<Op>, owed: Option<Op>, now: Time)
    requires Executes(t, ops)
    decreases |ops|
  {
    if ops == [] then owed.None?
    else
      var u := Step(t, ops[0]);
      if owed.Some? then ops[0] == owed.value && Copied(policy, u, ops[1..], None, now)
      else !ops[0].CopyOp? && Copied(policy, u, ops[1..], CopyOwed(policy, ops[0], u, now), now)
  }

  lemma {:induction false} CopiedJoin(
    policy: Policy, t: State, r: State, ops: seq<Op>, more: seq<Op>, owed: Option<Op>, now: Time)
    requires Executes(t, ops) && Final(t, ops) == r && Executes(r, more)
    requires Copied(policy, t, ops, owed, now) && Copied(policy, r, more, None, now)
    ensures Executes(t, ops + more) && Copied(policy, t, ops + more, owed, now)
    decreases |ops|
  {
    hide Step, Enabled, CopyOwed;
    ExecutesJoin(t, ops, more);
    if ops == [] {
      assert ops + more == more;
    } else {
      assert (ops + more)[0] == ops[0] && (ops + more)[1..] == ops[1..] + more;
      var u := Step(t, ops[0]);
      CopiedJoin(policy, u, r, ops[1..], more, if owed.Some? then None else CopyOwed(policy, ops[0], u, now), now);
    }
  }

  /** A first transmission with what it calls for. */
  lemma {:induction false} CopiedSend(policy: Policy, t: State, op: Op, more: seq<Op>, now: Time)
    requires Enabled(t, op) && !op.CopyOp?
    requires more == match CopyOwed(policy, op, Step(t, op), now) case None => [] case Some(copy) => [copy]
    requires more != [] ==> Enabled(Step(t, op), more[0])
    ensures Executes(t, [op] + more) && Copied(policy, t, [op] + more, None, now)
  {
    hide Step, Enabled, CopyOwed;
    var ops, u := [op] + more, Step(t, op);
    assert ops[0] == op && ops[1..] == more;
    if more != [] { assert more[1..] == [] && Executes(Step(u, more[0]), more[1..]); }
    assert Executes(u, more) && Copied(policy, u, more, CopyOwed(policy, op, u, now), now);
  }

  lemma {:induction false} ExecutesJoin(t: State, ops: seq<Op>, more: seq<Op>)
    requires Executes(t, ops) && Executes(Final(t, ops), more)
    ensures Executes(t, ops + more) && Final(t, ops + more) == Final(Final(t, ops), more)
    decreases |ops|
  {
    hide Step, Enabled;
    if ops == [] {
      assert ops + more == more;
    } else {
      assert (ops + more)[0] == ops[0] && (ops + more)[1..] == ops[1..] + more;
      ExecutesJoin(Step(t, ops[0]), ops[1..], more);
    }
  }

  /** Moves that send no datagram for the first time and no copy. */
  lemma {:induction false} CopiedIdle(policy: Policy, t: State, ops: seq<Op>, now: Time)
    requires Executes(t, ops)
    requires forall i :: 0 <= i < |ops| ==> !ops[i].CopyOp? && (ops[i].SendOp? ==> ops[i].c != Realtime)
    ensures Copied(policy, t, ops, None, now)
    decreases |ops|
  {
    hide Step, Enabled, CopyLane;
    if ops != [] { CopiedIdle(policy, Step(t, ops[0]), ops[1..], now); }
  }

  /** The moves lead from t to r with the copies they call for. */
  ghost predicate Duplicated(policy: Policy, t: State, r: State, ops: seq<Op>, now: Time) {
    Executes(t, ops) && Final(t, ops) == r && Copied(policy, t, ops, None, now)
  }

  lemma {:induction false} DuplicatedJoin(
    policy: Policy, t: State, r: State, s: State, ops: seq<Op>, more: seq<Op>, now: Time)
    requires Duplicated(policy, t, r, ops, now) && Duplicated(policy, r, s, more, now)
    ensures Duplicated(policy, t, s, ops + more, now)
  {
    hide Executes, Final, Copied;
    CopiedJoin(policy, t, r, ops, more, None, now);
    ExecutesJoin(t, ops, more);
  }

  lemma {:induction false} DuplicatedIdle(
    policy: Policy, t: State, r: State, ops: seq<Op>, out: seq<Output>, now: Time)
    requires Steered(policy, t, r, ops, out, now)
    requires forall i :: 0 <= i < |ops| ==> !ops[i].CopyOp? && (ops[i].SendOp? ==> ops[i].c != Realtime)
    ensures Duplicated(policy, t, r, ops, now)
  {
    hide Executes, Final, Copied, Frames, GuidedRun;
    CopiedIdle(policy, t, ops, now);
  }

  lemma {:induction false} DuplicatedSend(
    policy: Policy, t: State, u: State, r: State, op: Op, more: seq<Op>, out: seq<Output>, now: Time)
    requires Enabled(t, op) && op.SendOp? && u == Step(t, op) && Steered(policy, t, r, [op] + more, out, now)
    requires more == match CopyOwed(policy, op, u, now) case None => [] case Some(copy) => [copy]
    requires more != [] ==> Enabled(u, more[0])
    ensures Duplicated(policy, t, r, [op] + more, now)
  {
    hide Step, Enabled, CopyOwed, Executes, Final, Copied, Frames, GuidedRun;
    CopiedSend(policy, t, op, more, now);
  }

  // ----- new datagrams -----

  /** No lane is chosen for the head of the queue. */
  ghost predicate Blocked(policy: Policy, t: State, c: Class, now: Time) {
    HeadOf(t, c).Some? ==> ForHead(policy, t, c, HeadOf(t, c).value, now) == |t.lanes|
  }

  /** The state after the first k moves. */
  ghost function After(t: State, ops: seq<Op>, k: nat): State
    requires Executes(t, ops) && k <= |ops|
    decreases k
  {
    if k == 0 then t else After(Step(t, ops[0]), ops[1..], k - 1)
  }

  /** Where one part of a poll ends and the next begins. */
  datatype Cuts = Cuts(duties: nat, realtime: nat, small: nat)

  /** Real-time datagrams are sent until none has a lane, then small TCP ones, then bulk. */
  ghost predicate Emptied(policy: Policy, t: State, r: State, ops: seq<Op>, cuts: Cuts, now: Time) {
    && Executes(t, ops) && Final(t, ops) == r && cuts.duties <= cuts.realtime <= cuts.small <= |ops|
    && Blocked(policy, After(t, ops, cuts.realtime), Realtime, now)
    && Blocked(policy, After(t, ops, cuts.small), Small, now)
    && Blocked(policy, r, Bulk, now)
  }

  lemma {:induction false} EmptiedInTurn(
    policy: Policy, t: State, u: State, v: State, r: State, ops: seq<Op>, more: seq<Op>, rest: seq<Op>, now: Time)
    requires Executes(t, ops) && Final(t, ops) == u && Executes(u, more) && Final(u, more) == v
    requires Executes(v, rest) && Final(v, rest) == r
    requires Blocked(policy, u, Realtime, now) && Blocked(policy, v, Small, now) && Blocked(policy, r, Bulk, now)
    ensures Emptied(policy, t, r, ops + (more + rest), Cuts(0, |ops|, |ops| + |more|), now)
  {
    hide Executes, Final, After, Blocked;
    ExecutesJoin(u, more, rest);
    ExecutesJoin(t, ops, more + rest);
    AfterPrefix(t, ops, more + rest);
    AfterPrefix(u, more, rest);
    AfterShift(t, ops, more + rest, |more|);
  }

  lemma {:induction false} EmptiedLater(
    policy: Policy, t: State, u: State, r: State, first: seq<Op>, ops: seq<Op>, cuts: Cuts, now: Time)
    requires Executes(t, first) && Final(t, first) == u && Emptied(policy, u, r, ops, cuts, now)
    ensures var n := |first|; Emptied(policy, t, r, first + ops, Cuts(n, n + cuts.realtime, n + cuts.small), now)
  {
    hide Executes, Final, After, Blocked;
    ExecutesJoin(t, first, ops);
    AfterShift(t, first, ops, cuts.realtime);
    AfterShift(t, first, ops, cuts.small);
  }

  lemma {:induction false} SteeredRuns(policy: Policy, t: State, r: State, ops: seq<Op>, out: seq<Output>, now: Time)
    requires Steered(policy, t, r, ops, out, now)
    ensures Executes(t, ops) && Final(t, ops) == r
  {
    hide Executes, Final, Frames, GuidedRun;
  }

  lemma {:induction false} AfterPrefix(t: State, ops: seq<Op>, more: seq<Op>)
    requires Executes(t, ops) && Executes(Final(t, ops), more)
    ensures Executes(t, ops + more) && After(t, ops + more, |ops|) == Final(t, ops)
    decreases |ops|
  {
    hide Step, Enabled;
    ExecutesJoin(t, ops, more);
    if ops != [] {
      assert (ops + more)[0] == ops[0] && (ops + more)[1..] == ops[1..] + more;
      AfterPrefix(Step(t, ops[0]), ops[1..], more);
    }
  }

  lemma {:induction false} AfterShift(t: State, ops: seq<Op>, more: seq<Op>, k: nat)
    requires Executes(t, ops) && Executes(Final(t, ops), more) && k <= |more|
    ensures Executes(t, ops + more) && After(t, ops + more, |ops| + k) == After(Final(t, ops), more, k)
    decreases |ops|
  {
    hide Step, Enabled;
    ExecutesJoin(t, ops, more);
    if ops == [] {
      assert ops + more == more;
    } else {
      assert (ops + more)[0] == ops[0] && (ops + more)[1..] == ops[1..] + more;
      AfterShift(Step(t, ops[0]), ops[1..], more, k);
    }
  }
}
