/** What one accepted acknowledgement does, exactly: what it acknowledges and what the lanes then remember. */
module AckEffects {
  import opened Packets
  import opened ReceiptWindows
  import opened TransportState
  import opened TransportSteps
  import opened LaneLaws
  import opened TransportLaws
  import opened TransportRuns
  import opened AckLaws

  // ----- which datagrams -----

  /** Datagrams leave the pending set exactly as they become acknowledged. */
  ghost predicate Tracks(t: State, r: State) {
    t.acked <= r.acked && r.pending == t.pending - r.acked
  }

  lemma {:induction false} ConfirmTracks(t: State, numbers: set<nat>)
    requires t.pending !! t.acked
    ensures Tracks(t, Confirm(t, numbers)) && Confirm(t, numbers).pending !! Confirm(t, numbers).acked
  {
  }

  /** The states an acknowledgement passes through. */
  function Proved(t: State, i: nat, a: Acknowledgement, fresh_: bool, late: set<nat>): State
    requires i < |t.lanes|
  {
    if fresh_ then ConfirmPrefix(Matched(t, i, a, fresh_, late), i, a)
    else ConfirmReported(Receipts(t, i, a), i, a, late)
  }

  lemma {:induction false} Stages(t: State, i: nat, a: Acknowledgement, fresh_: bool, late: set<nat>)
    requires i < |t.lanes|
    ensures var r, s := ApplyAck(t, i, a, fresh_, late), SettleAll(Proved(t, i, a, fresh_, late), a);
      && r.acked == s.acked && r.pending == s.pending && |r.lanes| == |s.lanes| == |t.lanes|
      && (forall j :: 0 <= j < |t.lanes| ==>
            r.lanes[j].attempts == s.lanes[j].attempts && r.lanes[j].acked == s.lanes[j].acked)
  {
    hide ConfirmReported, ConfirmPrefix, SettleAll;
  }

  lemma {:induction false} StagesTrack(t: State, i: nat, a: Acknowledgement, fresh_: bool, late: set<nat>)
    requires i < |t.lanes| && t.pending !! t.acked
    ensures Tracks(t, Receipts(t, i, a)) && Tracks(t, Proved(t, i, a, fresh_, late))
    ensures Tracks(t, ApplyAck(t, i, a, fresh_, late))
    ensures var t2, t3 := Receipts(t, i, a), ConfirmReported(Receipts(t, i, a), i, a, late);
      t2.acked <= t3.acked <= Proved(t, i, a, fresh_, late).acked <= ApplyAck(t, i, a, fresh_, late).acked
  {
    hide Numbers, Reported, Prefix, Remove, SettledNumbers, SettleLanes, NoteHigh, NoteThrough, MatchedThrough, Confirm;
    hide ApplyAck;
    Stages(t, i, a, fresh_, late);
    var t1 := t.(lanes := t.lanes[i := NoteHigh(t.lanes[i], a)]);
    ConfirmTracks(t1, set n | n in t.pending && a.Received(n));
    var t2 := Receipts(t, i, a);
    ConfirmTracks(t2, Numbers(t2.lanes[i].attempts, Reported(t2.lanes[i], a)));
    var u3 := Matched(t, i, a, fresh_, late);
    ConfirmTracks(u3, Numbers(u3.lanes[i].attempts, Prefix(u3.lanes[i], a.high)));
    var t4 := Proved(t, i, a, fresh_, late);
    ConfirmTracks(t4, SettledNumbers(t4.lanes, a, t4.acked));
  }

  /** What is claimed through the lane is acknowledged before the lanes are settled. */
  lemma {:induction false} ClaimedIsAcked(t: State, i: nat, a: Acknowledgement, fresh_: bool, late: set<nat>, n: nat)
    requires i < |t.lanes| && Sweeps(t, t.lanes[i], a, late) && n in t.pending && t.pending !! t.acked
    requires Claimed(t.lanes[i], a, fresh_, n)
    ensures n in Proved(t, i, a, fresh_, late).acked || a.Received(n)
  {
    hide Remove, Fed, Sum, Only, SettleAll;
    var l, t2 := t.lanes[i], Receipts(t, i, a);
    var s :| s in l.attempts && l.attempts[s].carried.Datagram? && l.attempts[s].carried.number == n
      && (a.Reports(s) || (fresh_ && s <= a.high && Proves(Fed(l, a, fresh_), a)));
    StagesTrack(t, i, a, fresh_, late);
    NoteHighKeeps(l, a);
    var l2, t3 := t2.lanes[i], ConfirmReported(t2, i, a, late);
    assert l2 == NoteHigh(l, a) && Reported(l2, a) == Reported(l, a);
    if a.Reports(s) {
      assert n in Numbers(l2.attempts, Reported(l2, a));
    } else {
      InPrefix(t, i, a, late, s);
    }
  }

  lemma {:induction false} InPrefix(t: State, i: nat, a: Acknowledgement, late: set<nat>, s: nat)
    requires i < |t.lanes| && Sweeps(t, t.lanes[i], a, late) && t.pending !! t.acked
    requires s in t.lanes[i].attempts && t.lanes[i].attempts[s].carried.Datagram? && !a.Reports(s) && s <= a.high
    requires t.lanes[i].attempts[s].carried.number in t.pending && Proves(Fed(t.lanes[i], a, true), a)
    ensures var n := t.lanes[i].attempts[s].carried.number; n in Proved(t, i, a, true, late).acked || a.Received(n)
  {
    hide Fed, Sum, Only, SettleAll, Proves, ConfirmPrefix, ConfirmReported, Numbers, Prefix;
    var l, n, t2 := t.lanes[i], t.lanes[i].attempts[s].carried.number, Receipts(t, i, a);
    var u3 := Matched(t, i, a, true, late);
    StagesTrack(t, i, a, true, late);
    FedIsProved(t, i, a, late);
    PrefixStep(u3, i, a);
    KeptOrSwept(t, i, a, late, s);
    if s in u3.lanes[i].attempts && u3.lanes[i].attempts[s] == l.attempts[s] { InNumbers(u3.lanes[i], a.high, s); }
  }

  lemma {:induction false} InNumbers(l: Lane, high: nat, s: nat)
    requires s in l.attempts && s <= high && l.attempts[s].carried.Datagram?
    ensures l.attempts[s].carried.number in Numbers(l.attempts, Prefix(l, high))
  {
  }

  /** A transmission the bitmap does not report stays for the prefix, or was dropped because its datagram is known. */
  lemma {:induction false} KeptOrSwept(t: State, i: nat, a: Acknowledgement, late: set<nat>, s: nat)
    requires i < |t.lanes| && Sweeps(t, t.lanes[i], a, late) && t.pending !! t.acked
    requires s in t.lanes[i].attempts && t.lanes[i].attempts[s].carried.Datagram? && !a.Reports(s)
    requires t.lanes[i].attempts[s].carried.number in t.pending
    ensures var n, l' := t.lanes[i].attempts[s].carried.number, Matched(t, i, a, true, late).lanes[i];
      || (s in l'.attempts && l'.attempts[s] == t.lanes[i].attempts[s])
      || a.Received(n) || n in ConfirmReported(Receipts(t, i, a), i, a, late).acked
  {
    hide Sum, Only, MatchedThrough;
    var l, t2 := t.lanes[i], Receipts(t, i, a);
    NoteHighKeeps(l, a);
    assert Reported(t2.lanes[i], a) == Reported(l, a);
    if s in late {
      assert s in Passed(l, a, t.acked + Numbers(l.attempts, Reported(l, a)));
    }
  }

  lemma {:induction false} FedIsProved(t: State, i: nat, a: Acknowledgement, late: set<nat>)
    requires i < |t.lanes|
    ensures Proves(Fed(t.lanes[i], a, true), a) <==> Proves(Matched(t, i, a, true, late).lanes[i], a)
  {
    hide ConfirmReported;
    var l, t2 := t.lanes[i], Receipts(t, i, a);
    ReportedStep(t2, i, a, late);
    assert t2.lanes[i] == NoteHigh(l, a) && MatchedThrough(t2.lanes[i], a, true) == MatchedThrough(l, a, true);
  }

  /**
   * The effect of an accepted acknowledgement on the datagrams, exactly. A pending datagram is acknowledged,
   * and is no longer pending, if and only if the receipt bitmap reports it, the lane bitmap reports one of its
   * transmissions, or equal byte totals prove that one arrived. Nothing acknowledged before is given up.
   */
  lemma {:induction false} AckedIff(t: State, i: nat, a: Acknowledgement, fresh_: bool, late: set<nat>)
    requires Inv(t) && i < |t.lanes| && Sweeps(t, t.lanes[i], a, late)
    ensures var r := ApplyAck(t, i, a, fresh_, late);
      && t.acked <= r.acked
      && (forall n :: n in t.pending ==>
            (n in r.acked <==> a.Received(n) || Claimed(t.lanes[i], a, fresh_, n)))
      && (forall n :: n in r.pending <==> n in t.pending && n !in r.acked)
  {
    hide Inv, ApplyAck, Claimed, Sweeps, Proved;
    Apart(t);
    StagesTrack(t, i, a, fresh_, late);
    AckNumbers(t, i, a, fresh_, late);
    forall n | n in t.pending && (a.Received(n) || Claimed(t.lanes[i], a, fresh_, n))
      ensures n in ApplyAck(t, i, a, fresh_, late).acked
    {
      ReceivedIsAcked(t, i, a, n);
      if !a.Received(n) { ClaimedIsAcked(t, i, a, fresh_, late, n); }
    }
  }

  lemma {:induction false} ReceivedIsAcked(t: State, i: nat, a: Acknowledgement, n: nat)
    requires i < |t.lanes| && n in t.pending
    ensures a.Received(n) ==> n in Receipts(t, i, a).acked
  {
  }

  lemma {:induction false} Apart(t: State)
    requires Inv(t)
    ensures t.pending !! t.acked
  {
  }

  /** The same of the frame as it is received, if it is accepted. */
  lemma {:induction false} ReceivedAckIff(t: State, path: PathId, f: Ack, late: set<nat>, now: Time)
    requires Inv(t) && Enabled(t, AckOp(path, f, late, now)) && AckRefusal(t, path, f, now).None?
    ensures var l, r := t.lanes[Find(t.lanes, path)], ReceiveAck(t, path, f, late, now).0;
      && t.acked <= r.acked
      && (forall n :: n in t.pending ==>
            (n in r.acked <==> f.body.Received(n) || Claimed(l, f.body, f.revision > l.ackRevision, n)))
      && (forall n :: n in r.pending <==> n in t.pending && n !in r.acked)
  {
    hide Inv, ApplyAck, Claimed, Sweeps;
    var i := Find(t.lanes, path);
    var l := t.lanes[i].(ackReceipts := t.lanes[i].ackReceipts.Mark(f.revision),
                         ackRevision := Max(f.revision, t.lanes[i].ackRevision));
    LaterKeeps(t, now);
    RecordKeeps(t.(lastTime := now), i, l);
    var u := t.(lastTime := now, lanes := t.lanes[i := l]);
    var fresh_ := f.revision > t.lanes[i].ackRevision;
    SameClaims(t, t.lanes[i], u, l, f.body, late, fresh_);
    AckedIff(u, i, f.body, fresh_, late);
  }

  lemma {:induction false} SameClaims(
    t: State, l: Lane, u: State, l': Lane, a: Acknowledgement, late: set<nat>, fresh_: bool)
    requires l'.attempts == l.attempts && u.acked == t.acked
    requires l'.receivedHigh == l.receivedHigh && l'.receivedThrough == l.receivedThrough
    ensures Sweeps(u, l', a, late) == Sweeps(t, l, a, late)
    ensures forall n :: Claimed(l', a, fresh_, n) == Claimed(l, a, fresh_, n)
  {
    hide Numbers;
    SameReported(l, l', a);
    assert forall g: set<nat> :: Passed(l', a, g) == Passed(l, a, g);
    assert Proves(Fed(l', a, fresh_), a) == Proves(Fed(l, a, fresh_), a);
  }

  // ----- what an acknowledgement says -----

  /**
   * An acknowledgement reports exactly what its sender has on record: of the lane the last 64 numbers, of the
   * datagrams the 256 up to its top; with the bytes of the lane, the time its highest number took to arrive
   * since the first, and the time since then.
   */
  lemma {:induction false} BuiltAckSays(t: State, r: Receiver, now: Time)
    requires r.receipts.Valid() && r.start <= r.highAt <= now
    ensures var a := BuildAck(t, r, now).body;
      && (forall s: nat :: a.Reports(s) <==> s in r.receipts.marks && r.receipts.high - s < 64)
      && (forall n: nat :: a.Received(n) <==>
            n != 0 && n in t.received.marks && n <= ReportTop(t) && ReportTop(t) - n < ACK_RECEIPT_BITS)
      && a.high == r.receipts.high && a.bytes == r.bytes && a.observed == t.remote
      && r.start + a.elapsed == r.highAt && r.highAt + a.delay == now
  {
    hide ReportTop;
    var a := BuildAck(t, r, now).body;
    forall s: nat ensures a.Reports(s) <==> s in r.receipts.marks && r.receipts.high - s < 64 {
      if s <= r.receipts.high {
        assert MarkedBelow(r.receipts, r.receipts.high, r.receipts.high - s) == (s in r.receipts.marks);
      }
    }
    forall n: nat ensures a.Received(n) <==>
      n != 0 && n in t.received.marks && n <= ReportTop(t) && ReportTop(t) - n < ACK_RECEIPT_BITS
    {
      if n <= ReportTop(t) {
        assert MarkedBelow(t.received, ReportTop(t), ReportTop(t) - n) == (n in t.received.marks);
      }
    }
  }

  /** Every unreported datagram less than 256 ahead of the oldest is reported by the next acknowledgement. */
  lemma {:induction false} ReportsFarAsItReaches(t: State, r: Receiver, now: Time, n: nat)
    requires ReceiptsOk(t.received, t.unreported) && n in t.unreported.marks
    requires n - Oldest(t.unreported) < ACK_RECEIPT_BITS
    ensures BuildAck(t, r, now).body.Received(n)
  {
    assert t.unreported.IsOldest(Oldest(t.unreported));
    assert MarkedBelow(t.received, ReportTop(t), ReportTop(t) - n);
  }

  /** A frame the lane had not seen: one more to acknowledge, its bytes, and the time if it is the highest. */
  lemma {:induction false} ArrivalNoted(t: State, path: PathId, d: Data, now: Time)
    requires DataRefusal(t, path, d, now).None? && ReceiverFor(t, path, d.lane, now).receipts.Accepts(d.attempt)
    ensures var before, u := ReceiverFor(t, path, d.lane, now), ReceiveData(t, path, d, now).0;
      && d.lane in u.receivers && u.receivers.Keys == t.receivers.Keys + {d.lane}
      && (forall k :: k in t.receivers && k != d.lane ==> u.receivers[k] == t.receivers[k])
      && var r := u.receivers[d.lane];
         && r.pending == before.pending + 1 && r.bytes == before.bytes + WireBytes(d.payload)
         && r.receipts == before.receipts.Mark(d.attempt) && r.path == before.path && r.start == before.start
         && r.highAt == if d.attempt > before.receipts.high then now else before.highAt
  {
  }

  /** The first frame of a lane makes a receiver that has nothing yet and counts its times from now. */
  lemma {:induction false} FirstArrival(t: State, path: PathId, lane: PathId, now: Time)
    requires lane !in t.receivers
    ensures var r := ReceiverFor(t, path, lane, now);
      && r.path == path && r.remoteLane == lane && r.receipts.marks == {} && r.receipts.high == 0
      && r.bytes == r.pending == r.revision == 0 && r.start == r.highAt == r.ackAt == now
  {
  }

  /**
   * Sending an acknowledgement, exactly. Its receiver has the next revision, nothing pending, and the time noted;
   * off the unreported record go the numbers up to the top reported on: the highest received, or 255 beyond the
   * oldest unreported if that is lower.
   */
  lemma {:induction false} EmittedIs(t: State, lane: PathId, now: Time, n: nat)
    requires lane in t.receivers && ReceiptsOk(t.received, t.unreported)
    ensures var r, u := t.receivers[lane], EmitAck(t, lane, now);
      && u == t.(receivers := u.receivers, unreported := u.unreported) && u.receivers.Keys == t.receivers.Keys
      && (forall k :: k in t.receivers && k != lane ==> u.receivers[k] == t.receivers[k])
      && u.receivers[lane] == r.(revision := r.revision + 1, pending := 0, ackAt := now)
      && u.unreported.high == t.unreported.high
      && (n in u.unreported.marks <==>
            n in t.unreported.marks && exists m :: m in t.unreported.marks && n > m + 255)
      && BuildAck(t, r, now).revision == r.revision + 1 && BuildAck(t, r, now).lane == r.remoteLane
  {
    var oldest := Oldest(t.unreported);
    assert t.unreported.IsOldest(oldest);
    if n in t.unreported.marks && n > ReportTop(t) { assert oldest in t.unreported.marks && n > oldest + 255; }
  }

  // ----- what the lanes remember -----

  /** The transmissions whose bytes count as acknowledged: those reported, and a proved prefix but for those passed. */
  function Counted(l: Lane, a: Acknowledgement, fresh_: bool, late: set<nat>): set<nat> {
    set s | s in l.attempts
         && (a.Reports(s) || (fresh_ && Proves(Fed(l, a, fresh_), a) && s <= a.high && s !in late))
  }

  /** Bytes acknowledged and bytes still outstanding. */
  function Accounted(l: Lane): nat {
    l.acked + Sum(l.attempts, Outstanding, l.counter)
  }

  lemma {:induction false} RemovedAccounts(l: Lane, keys: set<nat>, counted: set<nat>)
    requires counted <= keys
    ensures Accounted(Dropped(l, keys, counted)) + Sum(Only(l.attempts, keys - counted), Outstanding, l.counter)
         == Accounted(l)
  {
    SumRemoved(l, keys);
    var gone := l.(attempts := Only(l.attempts, keys));
    SumRemoved(gone, counted);
    assert Only(gone.attempts, counted) == Only(l.attempts, counted);
    assert gone.attempts - counted == Only(l.attempts, keys - counted);
  }

  /** Lane i between the sweep and the settlement. */
  lemma {:induction false} LaneProved(t: State, i: nat, a: Acknowledgement, fresh_: bool, late: set<nat>)
    requires i < |t.lanes| && late !! Reported(t.lanes[i], a)
    ensures var l, l' := t.lanes[i], Proved(t, i, a, fresh_, late).lanes[i];
      && l'.attempts == l.attempts - (late + Counted(l, a, fresh_, late)) && l'.counter == l.counter
      && Accounted(l') + Sum(Only(l.attempts, late), Outstanding, l.counter) == Accounted(l)
    ensures forall j :: 0 <= j < |t.lanes| && j != i ==> Proved(t, i, a, fresh_, late).lanes[j] == t.lanes[j]
  {
    hide Sum, Confirm, Numbers, Fed, MatchedThrough, Proves;
    var l, t2 := t.lanes[i], Receipts(t, i, a);
    var l2, u3 := t2.lanes[i], Matched(t, i, a, fresh_, late);
    NoteHighKeeps(l, a);
    assert l2 == NoteHigh(l, a) && Reported(l2, a) == Reported(l, a) && Accounted(l2) == Accounted(l);
    var rep := Reported(l, a);
    RemovedAccounts(l2, rep + late, rep);
    assert rep + late - rep == late;
    var l3 := Dropped(l2, rep + late, rep);
    assert ConfirmReported(t2, i, a, late).lanes == t2.lanes[i := l3];
    assert Accounted(u3.lanes[i]) == Accounted(l3) && u3.lanes[i].attempts == l3.attempts;
    if fresh_ {
      FedIsProved(t, i, a, late);
      RemovedAccounts(u3.lanes[i], Prefix(u3.lanes[i], a.high), Prefix(u3.lanes[i], a.high));
      NothingLeft(u3.lanes[i], Prefix(u3.lanes[i], a.high));
      ProvedLane(u3, i, a);
    }
  }

  lemma {:induction false} NothingLeft(l: Lane, keys: set<nat>)
    ensures Sum(Only(l.attempts, keys - keys), Outstanding, l.counter) == 0
  {
    assert Only(l.attempts, keys - keys) == map[];
    SumEmpty(Outstanding, l.counter);
  }

  lemma {:induction false} ProvedLane(u: State, i: nat, a: Acknowledgement)
    requires i < |u.lanes|
    ensures var l, keys := u.lanes[i], Prefix(u.lanes[i], a.high);
      ConfirmPrefix(u, i, a).lanes == if Proves(l, a) then u.lanes[i := Dropped(l, keys, keys)] else u.lanes
  {
    hide Sum, Confirm, Numbers;
  }

  /** Settling marks transmissions and forgets none. */
  lemma {:induction false} SettledLane(l: Lane, a: Acknowledgement, acked: set<nat>)
    ensures var r := Settle(l, a, acked); r.attempts.Keys == l.attempts.Keys && Accounted(r) == Accounted(l)
    ensures var r := Settle(l, a, acked); forall s :: s in l.attempts ==>
      r.attempts[s] == if s in Settled(l, a, acked) then l.attempts[s].(released := true, confirmed := true)
                       else l.attempts[s]
  {
    hide Sum;
    var m := Settle(l, a, acked).attempts;
    forall s | 1 <= s <= l.counter ensures Term(m, Outstanding, s) == Term(l.attempts, Outstanding, s) {
    }
    SumSame(m, l.attempts, Outstanding, l.counter);
  }

  /**
   * The effect on the lanes, exactly. The lane the acknowledgement arrived on forgets the transmissions
   * reported, those in a proved prefix and those passed, and no others; bytes that stop being outstanding on it
   * are acknowledged, but for those passed. The other lanes forget nothing and acknowledge no bytes.
   */
  lemma {:induction false} LanesAfterAck(t: State, i: nat, a: Acknowledgement, fresh_: bool, late: set<nat>, j: nat)
    requires Inv(t) && i < |t.lanes| && j < |t.lanes| && Sweeps(t, t.lanes[i], a, late)
    ensures var l, r := t.lanes[j], ApplyAck(t, i, a, fresh_, late).lanes[j];
      && r.attempts.Keys == l.attempts.Keys - (if j == i then late + Counted(l, a, fresh_, late) else {})
      && r.acked + Sum(r.attempts, Outstanding, l.counter)
         + (if j == i then Sum(Only(l.attempts, late), Outstanding, l.counter) else 0) == Accounted(l)
  {
    hide Inv, Sum, Proved, Counted, Settle, ApplyAck, SettleAll, Only;
    LateUnreported(t, t.lanes[i], a, late);
    Stages(t, i, a, fresh_, late);
    LaneProved(t, i, a, fresh_, late);
    var t4 := Proved(t, i, a, fresh_, late);
    SettleAllLanes(t4, a);
    SettledLane(t4.lanes[j], a, t4.acked);
    SettleCounter(t4.lanes[j], a, t4.acked);
  }

  lemma {:induction false} SettleCounter(l: Lane, a: Acknowledgement, acked: set<nat>)
    ensures Settle(l, a, acked).counter == l.counter
  {
  }

  lemma {:induction false} SettleAllLanes(t: State, a: Acknowledgement)
    ensures SettleAll(t, a).lanes == SettleLanes(t.lanes, a, t.acked)
  {
  }

  lemma {:induction false} LateUnreported(t: State, l: Lane, a: Acknowledgement, late: set<nat>)
    requires Sweeps(t, l, a, late)
    ensures late !! Reported(l, a)
  {
  }

  // ----- no byte of an acknowledged datagram is in flight -----

  /** A lane's transmissions of acknowledged datagrams are marked and their bytes returned. */
  ghost predicate LaneSettled(l: Lane, acked: set<nat>) {
    forall s :: s in l.attempts ==>
      && (l.attempts[s].confirmed ==> l.attempts[s].released)
      && (l.attempts[s].carried.Datagram? && l.attempts[s].carried.number in acked ==> l.attempts[s].confirmed)
  }

  ghost predicate AllSettled(t: State) {
    forall j :: 0 <= j < |t.lanes| ==> LaneSettled(t.lanes[j], t.acked)
  }

  lemma {:induction false} SettleSettles(l: Lane, a: Acknowledgement, acked: set<nat>, more: set<nat>)
    requires forall s :: s in l.attempts && l.attempts[s].confirmed ==> l.attempts[s].released
    requires forall n :: n in more ==> n in acked || a.Received(n)
    ensures LaneSettled(Settle(l, a, acked), more)
  {
    hide Sum;
    SettledLane(l, a, acked);
  }

  lemma {:induction false} AckSettles(t: State, i: nat, a: Acknowledgement, fresh_: bool, late: set<nat>)
    requires i < |t.lanes| && AllSettled(t) && late !! Reported(t.lanes[i], a)
    ensures AllSettled(ApplyAck(t, i, a, fresh_, late))
  {
    hide Sum, Proved, Counted, Settle, ApplyAck, SettleAll, Only, Numbers;
    Stages(t, i, a, fresh_, late);
    LaneProved(t, i, a, fresh_, late);
    var t4 := Proved(t, i, a, fresh_, late);
    SettleAllLanes(t4, a);
    SettleStep(t4, a);
    forall j | 0 <= j < |t.lanes| ensures LaneSettled(SettleAll(t4, a).lanes[j], SettleAll(t4, a).acked) {
      assert LaneSettled(t.lanes[j], t.acked);
      SettleSettles(t4.lanes[j], a, t4.acked, SettleAll(t4, a).acked);
    }
  }

  lemma {:induction false} AckOpSettles(t: State, path: PathId, f: Ack, late: set<nat>, now: Time)
    requires AllSettled(t) && Enabled(t, AckOp(path, f, late, now))
    ensures AllSettled(ReceiveAck(t, path, f, late, now).0)
  {
    hide ApplyAck, Reported, AckRefusal;
    if AckRefusal(t, path, f, now).None? {
      AcceptedFinds(t, path, f, now);
      var i := Find(t.lanes, path);
      var l := t.lanes[i].(ackReceipts := t.lanes[i].ackReceipts.Mark(f.revision),
                           ackRevision := Max(f.revision, t.lanes[i].ackRevision));
      LateUnreported(t, t.lanes[i], f.body, late);
      SameReported(t.lanes[i], l, f.body);
      AckSettles(t.(lastTime := now, lanes := t.lanes[i := l]), i, f.body, f.revision > t.lanes[i].ackRevision, late);
    }
  }

  lemma {:induction false} AcceptedFinds(t: State, path: PathId, f: Ack, now: Time)
    requires AckRefusal(t, path, f, now).None?
    ensures Find(t.lanes, path) < |t.lanes|
  {
  }

  lemma {:induction false} SameReported(l: Lane, l': Lane, a: Acknowledgement)
    requires l'.attempts == l.attempts
    ensures Reported(l', a) == Reported(l, a)
  {
  }

  /** A lane settled for what is acknowledged stays so while no datagram is acknowledged that it has not settled. */
  ghost predicate Fresher(l: Lane, l': Lane, acked: set<nat>) {
    forall s :: s in l'.attempts ==>
      || (s in l.attempts && l'.attempts[s].carried == l.attempts[s].carried
          && l'.attempts[s].confirmed == l.attempts[s].confirmed
          && (l.attempts[s].released ==> l'.attempts[s].released))
      || (!l'.attempts[s].confirmed
          && (l'.attempts[s].carried.Datagram? ==> l'.attempts[s].carried.number !in acked))
  }

  lemma {:induction false} FresherSettled(l: Lane, l': Lane, acked: set<nat>)
    requires LaneSettled(l, acked) && Fresher(l, l', acked)
    ensures LaneSettled(l', acked)
  {
  }

  lemma {:induction false} TransmitSettled(t: State, n: nat, i: nat, now: Time)
    requires AllSettled(t) && n in t.packets && i < |t.lanes| && n !in t.acked
    ensures AllSettled(Transmit(t, n, i, now).(lastTime := now))
  {
    var r := Transmit(t, n, i, now);
    FresherSettled(t.lanes[i], r.lanes[i], t.acked);
  }

  lemma {:induction false} SendSettled(t: State, c: Class, i: nat, now: Time)
    requires AllSettled(t) && Inv(t) && Enabled(t, SendOp(c, i, now))
    ensures AllSettled(Step(t, SendOp(c, i, now)))
  {
    hide Inv, HeadOf, PopQueue, Transmit, AllSettled, Register;
    var u := Register(PopQueue(t, c), HeadOf(t, c).value, now);
    PopPackets(t, c);
    SendFirstFrame(t, c, i, now);
    RegisterFields(PopQueue(t, c), HeadOf(t, c).value, now);
    SameSettled(t, u);
    TransmitSettled(u, t.counter + 1, i, now);
  }

  lemma {:induction false} RegisterFields(t: State, p: Packet, now: Time)
    ensures var r := Register(t, p, now); r.lanes == t.lanes && r.acked == t.acked && t.counter + 1 in r.packets
  {
  }

  lemma {:induction false} SameSettled(t: State, r: State)
    requires AllSettled(t) && r.lanes == t.lanes && r.acked == t.acked
    ensures AllSettled(r)
  {
  }

  lemma {:induction false} StepSettles(t: State, op: Op)
    requires Inv(t) && AllSettled(t) && Enabled(t, op)
    ensures AllSettled(Step(t, op))
  {
    hide Inv, ReceiveAck, ReceiveData, EmitAck, TimeOut, PopQueue, HeadOf, Transmit, SendFirst, Enqueue, Oldest, AckDue;
    hide Without, Sum, AckRefusal, Sweeps, LaneSettled, BeginAttempt, SetRemote;
    match op
    case SetRemoteOp(epoch, adopted) => ResetSettled(t, epoch, adopted);
    case PathOp(id, remoteId, now) => LeaseSettled(t, id, remoteId, now);
    case DisableOp(id) => LeaseSettled(t, id, 0, 0);
    case EnqueueOp(payload, flow, ack, age, now) =>
      QueueFields(t, payload, flow, ack, age, now);
      SameSettled(t, Step(t, op));
    case DataOp(path, d, now) => DataFields(t, path, d, now); SameSettled(t, Step(t, op));
    case AckOp(path, f, late, now) => AckOpSettles(t, path, f, late, now);
    case EmitOp(lane, _, now) => EmitLanes(t, lane, now); SameSettled(t, Step(t, op));
    case TimeOutOp(i, rto, now) => TimedOutSettled(t.lanes[i], rto, now, t.acked);
    case PingOp(i, _, now) => PingSettled(t.lanes[i], now, t.acked);
    case ForgetOp(_, _) => SameSettled(t, Step(t, op));
    case ExpireOp(_, _) => SameSettled(t, Step(t, op));
    case MoveOp(n, i, now) => TransmitSettled(t, n, i, now);
    case RepairOp(n, i, _, now) => TransmitSettled(t, n, i, now);
    case CopyOp(n, i, now) => TransmitSettled(t, n, i, now);
    case SendOp(c, i, now) => SendSettled(t, c, i, now);
    case DropOp(c, now) => PopPackets(t, c); SameSettled(t, Step(t, op));
  }

  lemma {:induction false} ResetSettled(t: State, epoch: Epoch, adopted: bool)
    requires AllSettled(t)
    ensures AllSettled(SetRemote(t, epoch, adopted))
  {
    if AcceptsRemote(t, epoch, adopted) {
      forall j | 0 <= j < |t.lanes| ensures LaneSettled(ResetLane(t.lanes[j]), {}) { }
    }
  }

  lemma {:induction false} LeaseSettled(t: State, id: PathId, remoteId: PathId, now: Time)
    requires AllSettled(t)
    ensures AllSettled(Path(t, id, remoteId, now)) && AllSettled(Disable(t, id))
  {
    var i := Find(t.lanes, id);
    if i < |t.lanes| { assert LaneSettled(t.lanes[i], t.acked); }
  }

  lemma {:induction false} QueueFields(
    t: State, payload: seq<Byte>, flow: FlowId, ack: TcpAck, age: nat, now: Time)
    ensures var r := Enqueue(t, payload, flow, ack, age, now); r.lanes == t.lanes && r.acked == t.acked
  {
  }

  lemma {:induction false} DataFields(t: State, path: PathId, d: Data, now: Time)
    ensures var r := ReceiveData(t, path, d, now).0; r.lanes == t.lanes && r.acked == t.acked
  {
  }

  lemma {:induction false} EmitLanes(t: State, lane: PathId, now: Time)
    requires lane in t.receivers
    ensures EmitAck(t, lane, now).lanes == t.lanes && EmitAck(t, lane, now).acked == t.acked
  {
  }

  lemma {:induction false} TimedOutSettled(l: Lane, rto: nat, now: Time, acked: set<nat>)
    requires LaneSettled(l, acked)
    ensures LaneSettled(TimeOut(l, rto, now), acked)
  {
    hide Sum;
    FresherSettled(l, TimeOut(l, rto, now), acked);
  }

  lemma {:induction false} PingSettled(l: Lane, now: Time, acked: set<nat>)
    requires LaneSettled(l, acked)
    ensures LaneSettled(BeginAttempt(l, Ping, WIRE_OVERHEAD, now), acked)
  {
  }

  lemma {:induction false} RunSettles(t: State, ops: seq<Op>)
    requires Inv(t) && AllSettled(t) && Executes(t, ops)
    ensures AllSettled(Final(t, ops))
    decreases |ops|
  {
    hide Inv, Step, Enabled, AllSettled;
    if ops != [] {
      StepKeeps(t, ops[0]);
      StepSettles(t, ops[0]);
      RunSettles(Step(t, ops[0]), ops[1..]);
    }
  }

  /**
   * After every run of a new transport no byte of an acknowledged datagram is in flight on any lane: each
   * remembered transmission of it is released and confirmed, whichever acknowledgement reported which of them.
   */
  lemma {:induction false} NothingAckedInFlight(epoch: Epoch, ops: seq<Op>, j: nat, s: nat)
    requires Executes(New(epoch), ops)
    requires var t := Final(New(epoch), ops); j < |t.lanes| && s in t.lanes[j].attempts
    ensures var t := Final(New(epoch), ops); var x := t.lanes[j].attempts[s];
      x.carried.Datagram? && x.carried.number in t.acked ==> x.confirmed && Weight(x, InFlight) == 0
  {
    hide Inv, Executes, Final;
    Initially(epoch);
    RunSettles(New(epoch), ops);
    assert LaneSettled(Final(New(epoch), ops).lanes[j], Final(New(epoch), ops).acked);
  }
}
