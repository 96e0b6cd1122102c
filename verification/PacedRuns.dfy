/** The pacing clock of a lane carried along runs of the transport. */
module PacedRuns {
  import opened Packets
  import opened TransportState
  import opened TransportSteps
  import opened TransportLaws
  import opened TransportRuns
  import S = Scheduling
  import opened UsedLanes

  /** The bytes an acknowledgement occupies on the wire. */
  const ACK_WIRE_BYTES: nat := 193

  function Seconds(now: Time): real {
    now as real / 1_000_000_000.0
  }

  /** The bytes of the DATA frame an operation sends on a lane. */
  function DataLoad(t: State, op: Op, id: PathId): nat
    requires Enabled(t, op)
  {
    var out := Out(t, op);
    if out.SentData? && out.data.lane == id then WireBytes(out.data.payload) else 0
  }

  /** The bytes of the acknowledgement an operation sends on a lane. */
  function AckLoad(t: State, op: Op, id: PathId): nat
    requires Enabled(t, op)
  {
    if op.EmitOp? && t.receivers[op.lane].path == id then ACK_WIRE_BYTES else 0
  }

  function Load(t: State, op: Op, id: PathId): nat
    requires Enabled(t, op)
  {
    DataLoad(t, op, id) + AckLoad(t, op, id)
  }

  /** One rate for each operation: what the lane control held the lane's rate at. */
  ghost predicate Rated(ops: seq<Op>, rates: seq<real>, highest: real) {
    |rates| == |ops| && forall i :: 0 <= i < |rates| ==> 0.0 < rates[i] <= highest
  }

  /** nextSend after one operation: pace for what it sends on the lane, the zero time after a change of remote. */
  ghost function Paced(t: State, op: Op, rate: real, id: PathId, next: real): real
    requires Enabled(t, op) && rate > 0.0
  {
    if !Stays(t, op) then 0.0
    else if Load(t, op, id) == 0 then next
    else S.Pace(next, S.Charge(Seconds(At(op)), Load(t, op, id) as real, rate))
  }

  /** nextSend after a run. */
  ghost function NextSend(t: State, ops: seq<Op>, rates: seq<real>, highest: real, id: PathId, next: real): real
    requires Executes(t, ops) && Rated(ops, rates, highest)
    decreases |ops|
  {
    if ops == [] then next else
      NextSend(Step(t, ops[0]), ops[1..], rates[1..], highest, id, Paced(t, ops[0], rates[0], id, next))
  }

  /** What the run charges to the lane's clock. */
  ghost function Charges(t: State, ops: seq<Op>, rates: seq<real>, highest: real, id: PathId): (charges: seq<S.Charge>)
    requires Executes(t, ops) && Rated(ops, rates, highest)
    ensures S.AllValid(charges) && forall i :: 0 <= i < |charges| ==> charges[i].rate <= highest
    decreases |ops|
  {
    if ops == [] then [] else
      var n := Load(t, ops[0], id);
      (if n == 0 then [] else [S.Charge(Seconds(At(ops[0])), n as real, rates[0])])
      + Charges(Step(t, ops[0]), ops[1..], rates[1..], highest, id)
  }

  /** The acknowledgement bytes a run sends on a lane. */
  ghost function AckBytes(t: State, ops: seq<Op>, id: PathId): nat
    requires Executes(t, ops)
    decreases |ops|
  {
    if ops == [] then 0 else AckLoad(t, ops[0], id) + AckBytes(Step(t, ops[0]), ops[1..], id)
  }

  lemma {:induction false} ClockFrom(start: real, c: S.Charge, rest: seq<S.Charge>)
    requires c.Valid() && S.AllValid(rest)
    ensures S.AllValid([c] + rest) && S.Clock(start, [c] + rest) == S.Clock(S.Pace(start, c), rest)
    ensures S.Bytes([c] + rest) == c.bytes + S.Bytes(rest)
  {
    var all := [c] + rest;
    if rest == [] {
      assert all[..0] == [];
    } else {
      var n := |rest| - 1;
      ClockFrom(start, c, rest[..n]);
      assert all[..|all| - 1] == [c] + rest[..n] && all[|all| - 1] == rest[n];
    }
  }

  /** While the remote stays, nextSend is the fold of what the run charges. */
  lemma {:induction false} NextSendIsClock(
    t: State, ops: seq<Op>, rates: seq<real>, highest: real, id: PathId, next: real)
    requires Executes(t, ops) && OneEpoch(t, ops) && Rated(ops, rates, highest)
    ensures NextSend(t, ops, rates, highest, id, next) == S.Clock(next, Charges(t, ops, rates, highest, id))
    decreases |ops|
  {
    hide Step, Enabled, Out, Load, Stays, S.Pace;
    if ops != [] {
      var u, more := Step(t, ops[0]), Charges(Step(t, ops[0]), ops[1..], rates[1..], highest, id);
      NextSendIsClock(u, ops[1..], rates[1..], highest, id, Paced(t, ops[0], rates[0], id, next));
      if Load(t, ops[0], id) != 0 {
        ClockFrom(next, S.Charge(Seconds(At(ops[0])), Load(t, ops[0], id) as real, rates[0]), more);
      } else {
        assert [] + more == more;
      }
    }
  }

  /** What a run sends on a lane: what the lane counts as sent, and the acknowledgements. */
  ghost function SentSince(t: State, ops: seq<Op>, id: PathId): int
    requires Executes(t, ops)
  {
    LaneBytes(Final(t, ops).lanes, id) - LaneBytes(t.lanes, id) + AckBytes(t, ops, id)
  }

  /** What is charged is what the lane counts as sent, and the acknowledgements sent on it. */
  lemma {:induction false} ChargedBytes(t: State, ops: seq<Op>, rates: seq<real>, highest: real, id: PathId)
    requires Inv(t) && Executes(t, ops) && OneEpoch(t, ops) && Rated(ops, rates, highest)
    ensures LaneBytes(t.lanes, id) <= LaneBytes(Final(t, ops).lanes, id)
    ensures S.Bytes(Charges(t, ops, rates, highest, id)) == SentSince(t, ops, id) as real
    decreases |ops|
  {
    hide Inv, Step, Enabled, Out, Stays, LaneBytes;
    if ops != [] {
      var u, more := Step(t, ops[0]), Charges(Step(t, ops[0]), ops[1..], rates[1..], highest, id);
      StepKeeps(t, ops[0]);
      ChargedBytes(u, ops[1..], rates[1..], highest, id);
      LoadIs(t, ops[0], id);
      if Load(t, ops[0], id) != 0 {
        ClockFrom(0.0, S.Charge(Seconds(At(ops[0])), Load(t, ops[0], id) as real, rates[0]), more);
      } else {
        assert [] + more == more;
      }
    }
  }

  lemma {:induction false} LoadIs(t: State, op: Op, id: PathId)
    requires Inv(t) && Enabled(t, op) && Stays(t, op)
    ensures LaneBytes(Step(t, op).lanes, id) == LaneBytes(t.lanes, id) + DataLoad(t, op, id)
  {
    hide Inv, Step, Enabled, Out, LaneBytes, Stays;
    StepBytes(t, op, id);
  }

  /** So many bytes are at most the rate times the time passed, the slack and the lead. */
  predicate Within(bytes: int, rate: real, elapsed: real, lead: real) {
    bytes as real <= rate * (elapsed + S.PACING_SLACK + lead)
  }

  /**
   * A paced lane of the transport. Take any run that stays with one remote, from a transmission on a lane on,
   * at whatever rates. If the lane's clock then admits another with a lead, all the lane has sent since, the
   * first transmission and all pings, repairs, copies and acknowledgements included, is at most its highest
   * rate times the time passed, 2 ms and the lead.
   */
  lemma {:induction false} PacedLane(
    t: State, ops: seq<Op>, rates: seq<real>, highest: real, id: PathId, next: real, now: real, lead: real)
    requires Inv(t) && ops != [] && Executes(t, ops) && OneEpoch(t, ops) && Rated(ops, rates, highest)
    requires Load(t, ops[0], id) > 0 && NextSend(t, ops, rates, highest, id, next) <= now + lead
    ensures Within(SentSince(t, ops, id), highest, now - Seconds(At(ops[0])), lead)
  {
    hide Inv, Step, Enabled, Out, Load, Stays, LaneBytes, NextSend, AckBytes, S.Clock, S.Bytes;
    var charges := Charges(t, ops, rates, highest, id);
    NextSendIsClock(t, ops, rates, highest, id, next);
    ChargedBytes(t, ops, rates, highest, id);
    assert charges[0].at == Seconds(At(ops[0])) && charges[0..] == charges;
    S.PacedBytes(next, charges, 0, now, lead, highest);
  }

  /** So whenever the choice of a lane picks one whose view shows that clock, with the lead the datagram is allowed. */
  lemma {:induction false} ChosenLanePaced(
    t: State, ops: seq<Op>, rates: seq<real>, highest: real, next: real, v: S.View, r: S.Request)
    requires Inv(t) && ops != [] && Executes(t, ops) && OneEpoch(t, ops) && Rated(ops, rates, highest)
    requires Load(t, ops[0], v.id) > 0 && v.nextSend == NextSend(t, ops, rates, highest, v.id, next)
    requires v.Valid() && S.Admissible(v, r)
    ensures Within(SentSince(t, ops, v.id), highest, r.now - Seconds(At(ops[0])), S.Lead(r) + S.Borrow(v, r))
  {
    hide Inv, Executes, OneEpoch, Load, SentSince, NextSend, S.FitsWindow, S.Borrow, Within, Seconds;
    PacedLane(t, ops, rates, highest, v.id, next, r.now, S.Lead(r) + S.Borrow(v, r));
  }
}
