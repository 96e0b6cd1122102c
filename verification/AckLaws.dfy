/** What one accepted acknowledgement does to the sender, summed up for the two-party argument. */
module AckLaws {
  import opened TransportState

  /** l' remembers a part of the transmissions of l, with the same content. */
  ghost predicate Part(l: Lane, l': Lane) {
    && l'.id == l.id && l'.remoteId == l.remoteId && l'.counter == l.counter && l'.sent == l.sent
    && forall s :: s in l'.attempts ==>
         s in l.attempts && l'.attempts[s].carried == l.attempts[s].carried
         && l'.attempts[s].bytes == l.attempts[s].bytes && l'.attempts[s].through == l.attempts[s].through
  }

  /** The bookkeeping of received acknowledgements is the same. */
  ghost predicate SameFeedback(l: Lane, l': Lane) {
    && l'.ackRevision == l.ackRevision && l'.ackReceipts == l.ackReceipts
    && l'.ackedBytes == l.ackedBytes && l'.ackedElapsed == l.ackedElapsed
    && l'.receivedHigh == l.receivedHigh && l'.receivedThrough == l.receivedThrough
  }

  ghost predicate SameFrame(t: State, r: State) {
    r == t.(lanes := r.lanes, pending := r.pending, acked := r.acked, confirmed := r.confirmed)
      && |r.lanes| == |t.lanes|
  }

  lemma {:induction false} RemovePart(l: Lane, keys: set<nat>)
    ensures Part(l, Remove(l, keys)) && SameFeedback(l, Remove(l, keys))
  {
  }

  lemma {:induction false} SettlePart(l: Lane, a: Acknowledgement, acked: set<nat>)
    ensures Part(l, Settle(l, a, acked)) && SameFeedback(l, Settle(l, a, acked))
  {
  }

  lemma {:induction false} ReportedStep(t: State, i: nat, a: Acknowledgement, late: set<nat>)
    requires i < |t.lanes|
    ensures var r := ConfirmReported(t, i, a, late);
      && SameFrame(t, r)
      && (forall j :: 0 <= j < |t.lanes| ==> Part(t.lanes[j], r.lanes[j]) && SameFeedback(t.lanes[j], r.lanes[j]))
      && r.acked == t.acked + Numbers(t.lanes[i].attempts, Reported(t.lanes[i], a))
  {
    hide Remove, Numbers, Reported;
    RemovePart(t.lanes[i], Reported(t.lanes[i], a) + late);
  }

  /** The cumulative proof fires: the bytes reported equal the bytes sent through the highest number. */
  predicate Proves(l: Lane, a: Acknowledgement) {
    l.receivedThrough > 0 && a.high == l.receivedHigh && l.receivedThrough == a.bytes
  }

  lemma {:induction false} PrefixStep(t: State, i: nat, a: Acknowledgement)
    requires i < |t.lanes|
    ensures var r := ConfirmPrefix(t, i, a);
      && SameFrame(t, r)
      && (forall j :: 0 <= j < |t.lanes| ==> Part(t.lanes[j], r.lanes[j]) && SameFeedback(t.lanes[j], r.lanes[j]))
      && r.acked == t.acked
         + (if Proves(t.lanes[i], a) then Numbers(t.lanes[i].attempts, Prefix(t.lanes[i], a.high)) else {})
  {
    hide Remove, Numbers, Prefix;
    RemovePart(t.lanes[i], Prefix(t.lanes[i], a.high));
  }

  lemma {:induction false} SettleStep(t: State, a: Acknowledgement)
    ensures var r := SettleAll(t, a);
      && SameFrame(t, r)
      && (forall j :: 0 <= j < |t.lanes| ==> Part(t.lanes[j], r.lanes[j]) && SameFeedback(t.lanes[j], r.lanes[j]))
      && (forall n :: n in r.acked ==> n in t.acked || a.Received(n))
  {
    hide Settle;
    forall j | 0 <= j < |t.lanes|
      ensures Part(t.lanes[j], SettleAll(t, a).lanes[j]) && SameFeedback(t.lanes[j], SettleAll(t, a).lanes[j])
    {
      SettlePart(t.lanes[j], a, t.acked);
    }
  }

  /** The feedback fields of lane l after acknowledgement a. */
  function Fed(l: Lane, a: Acknowledgement, fresh_: bool): Lane {
    var h := NoteHigh(l, a);
    var h' := if fresh_ then NoteThrough(h, a, MatchedThrough(l, a, fresh_)) else h;
    if fresh_ then h'.(ackedBytes := a.bytes, ackedElapsed := a.elapsed) else h'
  }

  /** The datagrams one acknowledgement confirms through the lane it arrives on. */
  ghost predicate Claimed(l: Lane, a: Acknowledgement, fresh_: bool, n: nat) {
    exists s :: s in l.attempts && l.attempts[s].carried.Datagram? && l.attempts[s].carried.number == n
      && (a.Reports(s) || (fresh_ && s <= a.high && Proves(Fed(l, a, fresh_), a)))
  }

  lemma {:induction false} PartTrans(l: Lane, m: Lane, r: Lane)
    requires Part(l, m) && Part(m, r)
    ensures Part(l, r)
  {
  }

  lemma {:induction false} NumbersClaimed(l: Lane, l': Lane, keys: set<nat>, n: nat)
    requires Part(l, l') && n in Numbers(l'.attempts, keys)
    ensures exists s ::
      s in keys && s in l.attempts && l.attempts[s].carried.Datagram? && l.attempts[s].carried.number == n
  {
    var s :| s in l'.attempts && s in keys && l'.attempts[s].carried.Datagram? && l'.attempts[s].carried.number == n;
    assert s in keys && s in l.attempts;
  }

  lemma {:induction false} ReportedClaimed(t: State, l: Lane, a: Acknowledgement, fresh_: bool, n: nat)
    requires n in Numbers(l.attempts, Reported(l, a))
    ensures Claimed(l, a, fresh_, n)
  {
    var s :| s in l.attempts && s in Reported(l, a) && l.attempts[s].carried.Datagram?
      && l.attempts[s].carried.number == n;
  }

  lemma {:induction false} PrefixClaimed(l: Lane, l': Lane, a: Acknowledgement, fresh_: bool, n: nat)
    requires Part(l, l') && fresh_ && Proves(Fed(l, a, fresh_), a)
    requires n in Numbers(l'.attempts, Prefix(l', a.high))
    ensures Claimed(l, a, fresh_, n)
  {
    NumbersClaimed(l, l', Prefix(l', a.high), n);
    var s :| s in Prefix(l', a.high) && s in l.attempts && l.attempts[s].carried.Datagram?
      && l.attempts[s].carried.number == n;
  }

  /** The states one acknowledgement passes through: receipts, lane reports, prefix proof, settlement. */
  function Receipts(t: State, i: nat, a: Acknowledgement): State
    requires i < |t.lanes|
  {
    Confirm(t.(lanes := t.lanes[i := NoteHigh(t.lanes[i], a)]), set n | n in t.pending && a.Received(n))
  }

  function Matched(t: State, i: nat, a: Acknowledgement, fresh_: bool, late: set<nat>): State
    requires i < |t.lanes|
  {
    var t2 := Receipts(t, i, a);
    var t3 := ConfirmReported(t2, i, a, late);
    t3.(lanes := t3.lanes[i := NoteThrough(t3.lanes[i], a, MatchedThrough(t2.lanes[i], a, fresh_))])
  }

  lemma {:induction false} AckLanes(t: State, i: nat, a: Acknowledgement, fresh_: bool, late: set<nat>)
    requires i < |t.lanes|
    ensures var r := ApplyAck(t, i, a, fresh_, late);
      && SameFrame(t, r)
      && (forall j :: 0 <= j < |t.lanes| ==> Part(t.lanes[j], r.lanes[j]))
      && (forall j :: 0 <= j < |t.lanes| && j != i ==> SameFeedback(t.lanes[j], r.lanes[j]))
      && SameFeedback(Fed(t.lanes[i], a, fresh_), r.lanes[i])
  {
    hide ConfirmReported, ConfirmPrefix, SettleAll, Part, SameFeedback, Proves, MatchedThrough, NoteHigh, Fed;
    var t2 := Receipts(t, i, a);
    var t3 := ConfirmReported(t2, i, a, late);
    ReportedStep(t2, i, a, late);
    var u3 := Matched(t, i, a, fresh_, late);
    PrefixStep(u3, i, a);
    var t4 := if fresh_ then ConfirmPrefix(u3, i, a) else t3;
    SettleStep(t4, a);
    var t5 := SettleAll(t4, a);
    NoteHighKeeps(t.lanes[i], a);
    PartsChain(t, t2, t3, u3, t4, t5, i, a);
    FeedbackChain(t, t2, t3, u3, t4, t5, i, a, fresh_);
    PartFed(t.lanes[i], t5.lanes[i], a);
  }

  lemma {:induction false} PartFed(l: Lane, r: Lane, a: Acknowledgement)
    requires Part(l, r)
    ensures Part(l, r.(ackedBytes := a.bytes, ackedElapsed := a.elapsed))
  {
  }

  lemma {:induction false} AckNumbers(t: State, i: nat, a: Acknowledgement, fresh_: bool, late: set<nat>)
    requires i < |t.lanes|
    ensures var r := ApplyAck(t, i, a, fresh_, late);
      forall n :: n in r.acked ==> n in t.acked || a.Received(n) || Claimed(t.lanes[i], a, fresh_, n)
  {
    hide ConfirmReported, ConfirmPrefix, SettleAll, Numbers, Reported, Prefix, Claimed, Part, SameFeedback, Proves;
    hide MatchedThrough, NoteHigh, NoteThrough, SameFrame;
    var t2 := Receipts(t, i, a);
    var t3 := ConfirmReported(t2, i, a, late);
    ReportedStep(t2, i, a, late);
    var u3 := Matched(t, i, a, fresh_, late);
    PrefixStep(u3, i, a);
    var t4 := if fresh_ then ConfirmPrefix(u3, i, a) else t3;
    SettleStep(t4, a);
    forall n | n in SettleAll(t4, a).acked ensures n in t.acked || a.Received(n) || Claimed(t.lanes[i], a, fresh_, n) {
      AckedChain(t, t2, t3, u3, t4, i, a, fresh_, n);
    }
  }

  lemma {:induction false} PartsChain(
    t: State, t2: State, t3: State, u3: State, t4: State, t5: State, i: nat, a: Acknowledgement)
    requires i < |t.lanes| == |t2.lanes| == |t3.lanes| == |u3.lanes| == |t4.lanes| == |t5.lanes|
    requires t2.lanes == t.lanes[i := NoteHigh(t.lanes[i], a)]
    requires forall j :: 0 <= j < |t.lanes| ==> Part(t2.lanes[j], t3.lanes[j])
    requires u3.lanes == t3.lanes[i := t3.lanes[i].(receivedThrough := u3.lanes[i].receivedThrough)]
    requires t4 == t3 || forall j :: 0 <= j < |t.lanes| ==> Part(u3.lanes[j], t4.lanes[j])
    requires forall j :: 0 <= j < |t.lanes| ==> Part(t4.lanes[j], t5.lanes[j])
    ensures forall j :: 0 <= j < |t.lanes| ==> Part(t.lanes[j], t5.lanes[j])
  {
    forall j | 0 <= j < |t.lanes| ensures Part(t.lanes[j], t5.lanes[j]) {
      assert Part(t.lanes[j], t2.lanes[j]);
      PartTrans(t.lanes[j], t2.lanes[j], t3.lanes[j]);
      if t4 != t3 {
        assert Part(t3.lanes[j], u3.lanes[j]);
        PartTrans(t.lanes[j], t3.lanes[j], u3.lanes[j]);
        PartTrans(t.lanes[j], u3.lanes[j], t4.lanes[j]);
      }
      PartTrans(t.lanes[j], t4.lanes[j], t5.lanes[j]);
    }
  }

  lemma {:induction false} NoteHighKeeps(l: Lane, a: Acknowledgement)
    ensures Part(l, NoteHigh(l, a)) && NoteHigh(l, a).attempts == l.attempts
  {
  }

  lemma {:induction false} FeedbackChain(
    t: State, t2: State, t3: State, u3: State, t4: State, t5: State, i: nat, a: Acknowledgement, fresh_: bool)
    requires i < |t.lanes| == |t2.lanes| == |t3.lanes| == |u3.lanes| == |t4.lanes| == |t5.lanes|
    requires t2.lanes == t.lanes[i := NoteHigh(t.lanes[i], a)]
    requires forall j :: 0 <= j < |t.lanes| ==> SameFeedback(t2.lanes[j], t3.lanes[j])
    requires u3 == t3.(lanes := t3.lanes[i := NoteThrough(t3.lanes[i], a, MatchedThrough(t2.lanes[i], a, fresh_))])
    requires if fresh_ then forall j :: 0 <= j < |t.lanes| ==> SameFeedback(u3.lanes[j], t4.lanes[j]) else t4 == t3
    requires forall j :: 0 <= j < |t.lanes| ==> SameFeedback(t4.lanes[j], t5.lanes[j])
    ensures forall j :: 0 <= j < |t.lanes| && j != i ==> SameFeedback(t.lanes[j], t5.lanes[j])
    ensures SameFeedback(Fed(t.lanes[i], a, fresh_),
              if fresh_ then t5.lanes[i].(ackedBytes := a.bytes, ackedElapsed := a.elapsed) else t5.lanes[i])
  {
    assert MatchedThrough(t2.lanes[i], a, fresh_) == MatchedThrough(t.lanes[i], a, fresh_);
  }

  lemma {:induction false} AckedChain(
    t: State, t2: State, t3: State, u3: State, t4: State, i: nat, a: Acknowledgement, fresh_: bool, n: nat)
    requires i < |t.lanes| == |t2.lanes| == |t3.lanes| == |u3.lanes|
    requires t2.lanes == t.lanes[i := NoteHigh(t.lanes[i], a)]
    requires forall m :: m in t2.acked ==> m in t.acked || a.Received(m)
    requires t3.acked == t2.acked + Numbers(t2.lanes[i].attempts, Reported(t2.lanes[i], a))
    requires Part(t2.lanes[i], t3.lanes[i]) && SameFeedback(t2.lanes[i], t3.lanes[i])
    requires u3 == t3.(lanes := t3.lanes[i := NoteThrough(t3.lanes[i], a, MatchedThrough(t2.lanes[i], a, fresh_))])
    requires t4.acked == if fresh_ && Proves(u3.lanes[i], a)
                         then t3.acked + Numbers(u3.lanes[i].attempts, Prefix(u3.lanes[i], a.high)) else t3.acked
    requires n in t4.acked || a.Received(n)
    ensures n in t.acked || a.Received(n) || Claimed(t.lanes[i], a, fresh_, n)
  {
    hide Numbers, Claimed;
    var l, l2 := t.lanes[i], t2.lanes[i];
    assert Reported(l2, a) == Reported(l, a) && l2.attempts == l.attempts;
    if n in Numbers(l2.attempts, Reported(l2, a)) {
      ReportedClaimed(t, l, a, fresh_, n);
    } else if fresh_ && Proves(u3.lanes[i], a) && n in Numbers(u3.lanes[i].attempts, Prefix(u3.lanes[i], a.high)) {
      assert Part(l, u3.lanes[i]);
      PrefixClaimed(l, u3.lanes[i], a, fresh_, n);
    }
  }
}
