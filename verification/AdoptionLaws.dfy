/**
 * What one transport records between two adoptions, over every run and for whatever frames reach it: nothing
 * here assumes that the frames were sent, or that an epoch is adopted only once.
 */
module AdoptionLaws {
  import opened Basics
  import opened Packets
  import opened ReceiptWindows
  import opened TransportState
  import opened TransportSteps
  import opened TransportLaws
  import opened TransportRuns
  import AckLaws
  import NetworkSteps
  import NetworkReceive

  /** Since the last adoption: the datagrams delivered, and by lane the acknowledgement revisions accepted. */
  datatype Record = Record(delivered: seq<nat>, revisions: map<PathId, seq<nat>>) {
    function Revisions(id: PathId): seq<nat> {
      if id in revisions then revisions[id] else []
    }
  }

  const NOTHING_YET: Record := Record([], map[])

  predicate AcceptsAck(t: State, op: Op) {
    op.AckOp? && AckRefusal(t, op.path, op.frame, op.now).None?
  }

  /** The record after one more operation. */
  ghost function Noted(t: State, op: Op, rec: Record): Record
    requires Enabled(t, op)
  {
    if !Stays(t, op) then NOTHING_YET
    else if Out(t, op).Delivered? then rec.(delivered := rec.delivered + [Out(t, op).number])
    else if AcceptsAck(t, op) then
      rec.(revisions := rec.revisions[op.path := rec.Revisions(op.path) + [op.frame.revision]])
    else rec
  }

  /** The record after a run. */
  ghost function History(t: State, ops: seq<Op>, rec: Record): Record
    requires Executes(t, ops)
    decreases |ops|
  {
    if ops == [] then rec else History(Step(t, ops[0]), ops[1..], Noted(t, ops[0], rec))
  }

  /** The window of acknowledgement revisions of a lane; a lane there is not yet has an empty one. */
  function LaneWindow(lanes: seq<Lane>, id: PathId): Window {
    var i := Find(lanes, id);
    if i < |lanes| then lanes[i].ackReceipts else EMPTY
  }

  /** The windows of a transport are exactly those of its record, in which no number occurs twice. */
  ghost predicate Remembers(t: State, rec: Record) {
    && t.received == MarkAll(rec.delivered) && Distinct(rec.delivered)
    && forall id :: LaneRemembers(t.lanes, rec, id)
  }

  ghost predicate LaneRemembers(lanes: seq<Lane>, rec: Record, id: PathId) {
    LaneWindow(lanes, id) == MarkAll(rec.Revisions(id)) && Distinct(rec.Revisions(id))
  }

  // ----- one step -----

  lemma {:induction false} SameWindows(lanes: seq<Lane>, lanes': seq<Lane>)
    requires |lanes'| == |lanes|
    requires forall i :: 0 <= i < |lanes| ==>
      lanes'[i].id == lanes[i].id && lanes'[i].ackReceipts == lanes[i].ackReceipts
    ensures forall id :: LaneWindow(lanes', id) == LaneWindow(lanes, id)
  {
    NetworkSteps.SameIds(lanes, lanes');
  }

  lemma {:induction false} NewLaneWindow(lanes: seq<Lane>, l: Lane)
    requires Find(lanes, l.id) == |lanes| && l.ackReceipts == EMPTY
    ensures forall id :: LaneWindow(lanes + [l], id) == LaneWindow(lanes, id)
  {
    var lanes' := lanes + [l];
    forall id ensures LaneWindow(lanes', id) == LaneWindow(lanes, id) {
      var i, j := Find(lanes, id), Find(lanes', id);
      assert forall k :: 0 <= k < |lanes| ==> lanes'[k] == lanes[k];
      assert i < |lanes| ==> lanes'[i].id == id;
    }
  }

  /** What a step does to the lanes' windows, unless it accepts an acknowledgement or a new remote. */
  ghost predicate WindowsKept(t: State, r: State) {
    forall id :: LaneWindow(r.lanes, id) == LaneWindow(t.lanes, id)
  }

  lemma {:induction false} PathWindows(t: State, id: PathId, remoteId: PathId, now: Time)
    ensures WindowsKept(t, Path(t, id, remoteId, now)) && WindowsKept(t, Disable(t, id))
  {
    var i := Find(t.lanes, id);
    if i < |t.lanes| {
      SameWindows(t.lanes, Path(t, id, remoteId, now).lanes);
      SameWindows(t.lanes, Disable(t, id).lanes);
    } else {
      NewLaneWindow(t.lanes, NewLane(id, remoteId, now));
    }
  }

  lemma {:induction false} SilentWindows(t: State, op: Op)
    requires Enabled(t, op) && NetworkSteps.Silent(op)
    ensures WindowsKept(t, Step(t, op)) && Step(t, op).received == t.received && Out(t, op) == Quiet
  {
    hide Enqueue, PopQueue, HeadOf, Path, Disable, Release, Overdue, Find;
    NetworkSteps.SilentFrame(t, op);
    match op {
      case PathOp(id, remoteId, now) => PathWindows(t, id, remoteId, now);
      case DisableOp(id) => PathWindows(t, id, 0, 0);
      case TimeOutOp(i, rto, now) =>
        TimedOutFields(t.lanes[i], rto, now);
        SameWindows(t.lanes, Step(t, op).lanes);
      case _ =>
    }
  }

  lemma {:induction false} TimedOutFields(l: Lane, rto: nat, now: Time)
    ensures TimeOut(l, rto, now).id == l.id && TimeOut(l, rto, now).ackReceipts == l.ackReceipts
  {
  }

  lemma {:induction false} SendWindows(t: State, op: Op)
    requires Inv(t) && Enabled(t, op) && (Sends(op) || op.PingOp?)
    ensures WindowsKept(t, Step(t, op)) && Step(t, op).received == t.received && Out(t, op).SentData?
  {
    hide Inv, Step, Out, Enabled;
    NetworkSteps.SendEffect(t, op);
    SameWindows(t.lanes, Step(t, op).lanes);
  }

  lemma {:induction false} EmitWindows(t: State, lane: PathId, now: Time)
    requires lane in t.receivers
    ensures WindowsKept(t, EmitAck(t, lane, now).(lastTime := now)) && EmitAck(t, lane, now).received == t.received
  {
    hide ReportTop;
  }

  lemma {:induction false} AckWindows(t: State, path: PathId, f: Ack, late: set<nat>, now: Time)
    ensures var r := ReceiveAck(t, path, f, late, now).0;
      && r.received == t.received
      && if AckRefusal(t, path, f, now).Some? then WindowsKept(t, r)
         else
           && LaneWindow(t.lanes, path).Accepts(f.revision)
           && LaneWindow(r.lanes, path) == LaneWindow(t.lanes, path).Mark(f.revision)
           && forall id :: id != path ==> LaneWindow(r.lanes, id) == LaneWindow(t.lanes, id)
  {
    hide ReceiveAck, AckLaws.Claimed, MatchedThrough;
    if AckRefusal(t, path, f, now).Some? {
      NetworkReceive.RefusedOutside(t, path, f, late, now);
    } else {
      NetworkReceive.AckEffect(t, path, f, late, now);
      var r := ReceiveAck(t, path, f, late, now).0;
      NetworkSteps.SameIds(t.lanes, r.lanes);
    }
  }

  /** What one operation records. */
  lemma {:induction false} StepRecords(t: State, op: Op)
    requires Inv(t) && Enabled(t, op) && Stays(t, op)
    ensures if Out(t, op).Delivered?
            then t.received.Accepts(Out(t, op).number) && Step(t, op).received == t.received.Mark(Out(t, op).number)
            else Step(t, op).received == t.received
    ensures AcceptsAck(t, op) ==>
      && !Out(t, op).Delivered? && LaneWindow(t.lanes, op.path).Accepts(op.frame.revision)
      && LaneWindow(Step(t, op).lanes, op.path) == LaneWindow(t.lanes, op.path).Mark(op.frame.revision)
      && forall id :: id != op.path ==> LaneWindow(Step(t, op).lanes, id) == LaneWindow(t.lanes, id)
    ensures !AcceptsAck(t, op) ==> WindowsKept(t, Step(t, op))
  {
    hide Inv, SetRemote, Path, Disable, Enqueue, ReceiveData, ReceiveAck, EmitAck, TimeOut, PopQueue, HeadOf, Transmit;
    hide Register, LaneWindow, AckRefusal, Oldest, AckDue, Without;
    match op
    case SetRemoteOp(_, _) => RefusedRemote(t, op);
    case DataOp(path, d, now) => NetworkReceive.DataEffect(t, path, d, now);
    case AckOp(path, f, late, now) => AckWindows(t, path, f, late, now); NetworkSteps.AckQuiet(t, path, f, late, now);
    case EmitOp(lane, _, now) => EmitWindows(t, lane, now);
    case PingOp(_, _, _) => SendWindows(t, op);
    case MoveOp(_, _, _) => SendWindows(t, op);
    case RepairOp(_, _, _, _) => SendWindows(t, op);
    case CopyOp(_, _, _) => SendWindows(t, op);
    case SendOp(_, _, _) => SendWindows(t, op);
    case _ => SilentWindows(t, op);
  }

  // ----- runs -----

  /** A number that a window of distinct numbers accepts is not among them, and is recorded by one more mark. */
  lemma {:induction false} RecordedOnce(seqs: seq<nat>, n: nat)
    requires Distinct(seqs) && MarkAll(seqs).Accepts(n)
    ensures Distinct(seqs + [n]) && MarkAll(seqs + [n]) == MarkAll(seqs).Mark(n)
  {
    RefusedIffSeenOrTooOld(seqs, n);
    WindowIsTheRecentSet(seqs, n);
    assert (seqs + [n])[..|seqs|] == seqs;
  }

  lemma {:induction false} NotedRemembers(t: State, op: Op, rec: Record)
    requires Inv(t) && Enabled(t, op) && Remembers(t, rec)
    ensures Remembers(Step(t, op), Noted(t, op, rec))
  {
    hide Inv, Step, Enabled, Out, LaneWindow, Distinct, MarkAll, Stays, AckRefusal;
    var r, rec' := Step(t, op), Noted(t, op, rec);
    if !Stays(t, op) {
      AdoptionClears(t, op);
      return;
    }
    StepRecords(t, op);
    if Out(t, op).Delivered? { RecordedOnce(rec.delivered, Out(t, op).number); }
    forall id ensures LaneRemembers(r.lanes, rec', id) {
      assert LaneRemembers(t.lanes, rec, id);
      if AcceptsAck(t, op) && id == op.path { RecordedOnce(rec.Revisions(id), op.frame.revision); }
    }
  }

  lemma {:induction false} AdoptionClears(t: State, op: Op)
    requires Enabled(t, op) && !Stays(t, op)
    ensures Remembers(Step(t, op), NOTHING_YET)
  {
    forall id ensures LaneRemembers(Step(t, op).lanes, NOTHING_YET, id) { }
  }

  lemma {:induction false} HistoryRemembers(t: State, ops: seq<Op>, rec: Record)
    requires Inv(t) && Executes(t, ops) && Remembers(t, rec)
    ensures Remembers(Final(t, ops), History(t, ops, rec))
    decreases |ops|
  {
    hide Inv, Step, Enabled, Remembers, Noted;
    if ops != [] {
      StepKeeps(t, ops[0]);
      NotedRemembers(t, ops[0], rec);
      HistoryRemembers(Step(t, ops[0]), ops[1..], Noted(t, ops[0], rec));
    }
  }

  /**
   * At most once per adoption, unconditionally. Over every run of a transport, whatever frames reach it and
   * whichever epochs it adopts or adopts again, no number is delivered twice between two adoptions, no
   * acknowledgement revision is accepted twice on a lane, and the windows are exactly what was recorded.
   */
  lemma {:induction false} OncePerAdoption(epoch: Epoch, ops: seq<Op>)
    requires Executes(New(epoch), ops)
    ensures var rec := History(New(epoch), ops, NOTHING_YET);
      Distinct(rec.delivered) && (forall id :: Distinct(rec.Revisions(id))) && Remembers(Final(New(epoch), ops), rec)
  {
    hide Executes, Final, History, Distinct, MarkAll;
    Initially(epoch);
    StartsEmpty(epoch);
    HistoryRemembers(New(epoch), ops, NOTHING_YET);
    var rec := History(New(epoch), ops, NOTHING_YET);
    forall id ensures Distinct(rec.Revisions(id)) { assert LaneRemembers(Final(New(epoch), ops).lanes, rec, id); }
  }

  lemma {:induction false} StartsEmpty(epoch: Epoch)
    ensures Remembers(New(epoch), NOTHING_YET)
  {
    forall id ensures LaneRemembers([], NOTHING_YET, id) { }
  }
}
