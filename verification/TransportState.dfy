/** The state of one transport and its steps, by value. */
module TransportState {
  import opened Packets
  import opened ReceiptWindows
  import FairQueues

  datatype PerClass = PerClass(realtime: int, small: int, bulk: int) {
    function Of(c: Class): int {
      match c case Realtime => realtime case Small => small case Bulk => bulk
    }

    function Add(c: Class, n: int): (r: PerClass)
      ensures forall d :: r.Of(d) == Of(d) + if c == d then n else 0
    {
      match c
      case Realtime => this.(realtime := realtime + n)
      case Small => this.(small := small + n)
      case Bulk => this.(bulk := bulk + n)
    }
  }

  const NOTHING: PerClass := PerClass(0, 0, 0)

  /** What one transmission on a lane carried. */
  datatype Carried = Ping | Datagram(number: nat, class_: Class)

  /** through is the lane's cumulative bytes sent, up to and including this transmission. */
  datatype Attempt = Attempt(carried: Carried, sent: Time, bytes: nat, released: bool, confirmed: bool, through: nat)

  datatype Lane = Lane(
    id: PathId, remoteId: PathId, lease: Time, lastTransmit: Time,
    counter: nat, attempts: map<nat, Attempt>, inflight: int, classInflight: PerClass,
    sent: nat, acked: nat, retries: nat,
    ackRevision: nat, ackReceipts: Window, ackedBytes: nat, ackedElapsed: nat,
    receivedHigh: nat, receivedThrough: nat)
  {
    predicate Up(now: Time) {
      lease != 0 && now - lease < PATH_LEASE
    }
  }

  datatype Receiver = Receiver(
    path: PathId, remoteLane: PathId, receipts: Window, bytes: nat,
    start: Time, highAt: Time, pending: nat, ackAt: Time, revision: nat)

  /**
   * One transport. Datagrams that have been transmitted are kept by number in packets; acked holds
   * the numbers whose acknowledged flag is set. held, offered, originals and confirmed are history:
   * the remote epochs adopted so far, the valid datagrams offered, the first transmissions, and the
   * pending datagrams removed by an acknowledgement.
   */
  datatype State = State(
    epoch: Epoch, remote: Epoch, lastTime: Time,
    lanes: seq<Lane>, receivers: map<PathId, Receiver>, receiverOrder: seq<PathId>,
    bulk: seq<Packet>, realtime: FairQueues.Rotation, small: FairQueues.Rotation,
    packets: map<nat, Packet>, pending: set<nat>, pendingOrder: seq<nat>, acked: set<nat>,
    counter: nat, bulkCounter: nat, interactiveCounter: nat,
    drops: nat, coalesced: nat, expired: nat, duplicates: nat,
    received: Window, unreported: Window,
    held: set<Epoch>, offered: nat, originals: nat, confirmed: nat)

  function New(epoch: Epoch): State {
    State(epoch, NO_EPOCH, 0, [], map[], [], [], [], [], map[], {}, [], {}, 0, 0, 0,
          0, 0, 0, 0, EMPTY, EMPTY, {NO_EPOCH}, 0, 0, 0)
  }

  // ----- frames -----

  datatype Data = Data(
    src: Epoch, dst: Epoch, lane: PathId, attempt: nat, number: nat, order: Order, payload: seq<Byte>)

  /** The bitmaps are given by their set bits. */
  datatype Acknowledgement = Acknowledgement(
    observed: Epoch, high: nat, mask: set<nat>, bytes: nat, elapsed: nat, delay: nat,
    receivedHigh: nat, receivedMask: set<nat>)
  {
    /** The lane bitmap reports the lane number s. */
    predicate Reports(s: nat) {
      s <= high && high - s < 64 && high - s in mask
    }

    /** The receipt bitmap reports the datagram number n. */
    predicate Received(n: nat) {
      n != 0 && n <= receivedHigh && receivedHigh - n < ACK_RECEIPT_BITS && receivedHigh - n in receivedMask
    }
  }

  datatype Ack = Ack(src: Epoch, lane: PathId, revision: nat, body: Acknowledgement)

  datatype Cause = BadTime | BadEpoch | BadPath | BadLane | Malformed | BadAck

  datatype Output =
    | Quiet
    | SentData(data: Data)
    | SentAck(ack: Ack)
    | Delivered(number: nat, order: Order, payload: seq<Byte>)
    | Duplicate
    | Refused(cause: Cause)

  // ----- lanes -----

  /** The index of the lane with the given id, the number of lanes when there is none. */
  function Find(lanes: seq<Lane>, id: PathId): (i: nat)
    ensures i <= |lanes|
    ensures i < |lanes| ==> lanes[i].id == id
    ensures forall j :: 0 <= j < i ==> lanes[j].id != id
  {
    if lanes == [] || lanes[0].id == id then 0 else 1 + Find(lanes[1..], id)
  }

  /** Which part of the transmissions on a lane a total counts. */
  datatype Share = InFlight | InFlightOf(c: Class) | Outstanding

  function Weight(a: Attempt, w: Share): nat {
    match w
    case InFlight => if a.released then 0 else a.bytes
    case InFlightOf(c) => if !a.released && a.carried.Datagram? && a.carried.class_ == c then a.bytes else 0
    case Outstanding => a.bytes
  }

  /** The total over the transmissions numbered up to n. */
  function Sum(m: map<nat, Attempt>, w: Share, n: nat): nat {
    if n == 0 then 0 else Sum(m, w, n - 1) + if n in m then Weight(m[n], w) else 0
  }

  function Only(m: map<nat, Attempt>, keys: set<nat>): map<nat, Attempt> {
    map s | s in m && s in keys :: m[s]
  }

  /** The lane after the window bytes of the given transmissions are returned, transmissions unchanged. */
  function Release(l: Lane, keys: set<nat>): Lane {
    var gone := Only(l.attempts, keys);
    l.(inflight := l.inflight - Sum(gone, InFlight, l.counter),
       classInflight := PerClass(
         l.classInflight.realtime - Sum(gone, InFlightOf(Realtime), l.counter),
         l.classInflight.small - Sum(gone, InFlightOf(Small), l.counter),
         l.classInflight.bulk - Sum(gone, InFlightOf(Bulk), l.counter)))
  }

  /** The lane without the given transmissions. */
  function Remove(l: Lane, keys: set<nat>): Lane {
    Release(l, keys).(attempts := l.attempts - keys)
  }

  /** The numbers of the datagrams carried by the given transmissions. */
  function Numbers(m: map<nat, Attempt>, keys: set<nat>): set<nat> {
    set s | s in m && s in keys && m[s].carried.Datagram? :: m[s].carried.number
  }

  function BeginAttempt(l: Lane, carried: Carried, bytes: nat, now: Time): Lane {
    l.(counter := l.counter + 1,
       attempts := l.attempts[l.counter + 1 := Attempt(carried, now, bytes, false, false, l.sent + bytes)],
       inflight := l.inflight + bytes,
       classInflight := if carried.Datagram? then l.classInflight.Add(carried.class_, bytes) else l.classInflight,
       sent := l.sent + bytes,
       lastTransmit := now)
  }

  // ----- epochs and paths -----

  predicate AcceptsRemote(t: State, epoch: Epoch, adopted: bool) {
    && epoch != t.remote
    && epoch.boot != 0 && epoch.generation != 0
    && (t.remote.boot != 0 ==>
         && (epoch.boot == t.remote.boot ==> epoch.generation > t.remote.generation)
         && (epoch.boot != t.remote.boot ==> adopted))
  }

  function ResetLane(l: Lane): Lane {
    l.(lease := 0, attempts := map[], inflight := 0, classInflight := NOTHING, counter := 0,
       ackRevision := 0, receivedHigh := 0, receivedThrough := 0, ackReceipts := EMPTY,
       ackedBytes := 0, ackedElapsed := 0)
  }

  function ResetLanes(lanes: seq<Lane>): (r: seq<Lane>)
    ensures |r| == |lanes|
    ensures forall i :: 0 <= i < |lanes| ==> r[i] == ResetLane(lanes[i])
  {
    seq(|lanes|, i requires 0 <= i < |lanes| => ResetLane(lanes[i]))
  }

  function SetRemote(t: State, epoch: Epoch, adopted: bool): State {
    if !AcceptsRemote(t, epoch, adopted) then t else
      t.(remote := epoch, held := t.held + {epoch},
         expired := t.expired + |t.pending|, pending := {}, pendingOrder := [], packets := map[], acked := {},
         counter := 0, bulkCounter := 0, interactiveCounter := 0,
         receivers := map[], receiverOrder := [], received := EMPTY, unreported := EMPTY,
         lanes := ResetLanes(t.lanes))
  }

  function NewLane(id: PathId, remoteId: PathId, now: Time): Lane {
    Lane(id, remoteId, now, now, 0, map[], 0, NOTHING, 0, 0, 0, 0, EMPTY, 0, 0, 0, 0)
  }

  function Path(t: State, id: PathId, remoteId: PathId, now: Time): State {
    var i := Find(t.lanes, id);
    if i < |t.lanes| then t.(lanes := t.lanes[i := t.lanes[i].(lease := now)], lastTime := now)
    else t.(lanes := t.lanes + [NewLane(id, remoteId, now)], lastTime := now)
  }

  function Disable(t: State, id: PathId): State {
    var i := Find(t.lanes, id);
    if i < |t.lanes| then t.(lanes := t.lanes[i := t.lanes[i].(lease := 0)]) else t
  }

  // ----- admission -----

  function Queued(t: State): nat {
    |t.bulk| + FairQueues.Count(t.realtime) + FairQueues.Count(t.small)
  }

  function Limit(c: Class): nat {
    if c == Bulk then MAX_PACKETS - SMALL_PACKET_HEADROOM else MAX_PACKETS
  }

  /** Puts a new datagram in the queue of its class. */
  function Admit(t: State, p: Packet): State {
    match p.class_
    case Bulk => t.(bulk := t.bulk + [p])
    case Realtime =>
      t.(realtime := FairQueues.Push(t.realtime, p),
         coalesced := t.coalesced + if FairQueues.Coalesces(FairQueues.Waiting(t.realtime, p.flow), p) then 1 else 0)
    case Small =>
      t.(small := FairQueues.Push(t.small, p),
         coalesced := t.coalesced + if FairQueues.Coalesces(FairQueues.Waiting(t.small, p.flow), p) then 1 else 0)
  }

  function Enqueue(t: State, payload: seq<Byte>, flow: FlowId, ack: TcpAck, age: nat, now: Time): State {
    if |payload| == 0 || |payload| > MAX_DATAGRAM then t.(lastTime := now) else
      var c := Classify(|payload|, flow, ack);
      var s := t.(lastTime := now, offered := t.offered + 1);
      if Queued(t) + |t.pending| >= Limit(c) then s.(drops := t.drops + 1)
      else Admit(s, NewPacket(payload, flow, ack, now, now + if c == Bulk then age else MAX_QUEUE_AGE))
  }

  // ----- transmission -----

  /** A datagram on its first transmission: it gets its number, its delivery order and its repair deadline. */
  function Numbered(t: State, p: Packet, now: Time): Packet {
    if p.class_ == Bulk then
      p.(number := t.counter + 1, order := Order(false, t.bulkCounter + 1), repairDeadline := now + MAX_PACKET_AGE)
    else
      p.(number := t.counter + 1, order := Order(true, t.interactiveCounter + 1),
         repairDeadline := p.created + MAX_PACKET_AGE)
  }

  function Register(t: State, p: Packet, now: Time): State {
    var s := t.(counter := t.counter + 1, originals := t.originals + 1,
                pendingOrder := t.pendingOrder + [t.counter + 1],
                pending := t.pending + {t.counter + 1},
                packets := t.packets[t.counter + 1 := Numbered(t, p, now)]);
    if p.class_ == Bulk then s.(bulkCounter := t.bulkCounter + 1)
    else s.(interactiveCounter := t.interactiveCounter + 1)
  }

  /** Transmits a numbered datagram on lane i. */
  function Transmit(t: State, n: nat, i: nat, now: Time): State
    requires n in t.packets && i < |t.lanes|
  {
    var p, l := t.packets[n], t.lanes[i];
    var l' := BeginAttempt(l, Datagram(n, p.class_), WireBytes(p.payload), now);
    t.(lanes := t.lanes[i := if p.attempts > 0 then l'.(retries := l.retries + 1) else l'],
       packets := t.packets[n := p.(attempts := p.attempts + 1, lastSent := now, lastPath := l.id,
                                    lastLaneNumber := l.counter + 1)],
       pending := t.pending + {n})
  }

  function TransmittedData(t: State, n: nat, i: nat): Data
    requires n in t.packets && i < |t.lanes|
  {
    Data(t.epoch, t.remote, t.lanes[i].id, t.lanes[i].counter + 1, n, t.packets[n].order, t.packets[n].payload)
  }

  /** Transmits a datagram taken from a queue. */
  function SendFirst(t: State, p: Packet, i: nat, now: Time): State
    requires i < |t.lanes|
  {
    Transmit(Register(t, p, now), t.counter + 1, i, now)
  }

  function Without(order: seq<nat>, n: nat): (r: seq<nat>)
    ensures forall x :: x in r <==> x in order && x != n
  {
    if order == [] then [] else (if order[0] == n then [] else [order[0]]) + Without(order[1..], n)
  }

  // ----- acknowledgements out -----

  function OldestFrom(w: Window, m: nat): (r: nat)
    requires forall x :: x in w.marks ==> m <= x
    ensures w.Valid() ==> w.IsOldest(r)
    decreases w.high + 1 - m
  {
    if m > w.high then 0 else if m in w.marks then m else OldestFrom(w, m + 1)
  }

  function Oldest(w: Window): nat {
    OldestFrom(w, 0)
  }

  /** The highest datagram number an acknowledgement reports on. */
  function ReportTop(t: State): nat {
    var oldest := Oldest(t.unreported);
    if oldest == 0 then t.received.high
    else if t.received.high - oldest > ACK_RECEIPT_BITS - 1 then oldest + (ACK_RECEIPT_BITS - 1) else t.received.high
  }

  predicate MarkedBelow(w: Window, top: nat, d: nat) {
    d <= top && top - d in w.marks
  }

  /** The set bits of the low word of a window's mask. */
  function LowWord(w: Window): set<nat> {
    set d | 0 <= d < 64 && MarkedBelow(w, w.high, d)
  }

  /** The set bits of the receipt bitmap below top. */
  function Bitmap(w: Window, top: nat): set<nat> {
    set d | 0 <= d < ACK_RECEIPT_BITS && d < top && MarkedBelow(w, top, d)
  }

  /** end.Sub(start); start never comes after end. */
  function Span(start: Time, end: Time): nat {
    if start <= end then end - start else 0
  }

  function BuildAck(t: State, r: Receiver, now: Time): Ack {
    Ack(t.epoch, r.remoteLane, r.revision + 1,
        Acknowledgement(t.remote, r.receipts.high, LowWord(r.receipts), r.bytes, Span(r.start, r.highAt),
                        Span(r.highAt, now), ReportTop(t), Bitmap(t.received, ReportTop(t))))
  }

  function EmitAck(t: State, lane: PathId, now: Time): State
    requires lane in t.receivers
  {
    var r := t.receivers[lane];
    t.(receivers := t.receivers[lane := r.(revision := r.revision + 1, pending := 0, ackAt := now)],
       unreported := t.unreported.Forget(ReportTop(t)))
  }

  predicate AckDue(r: Receiver, interval: nat, now: Time) {
    r.pending >= ACK_BATCH_PACKETS || now - r.ackAt >= interval
  }

  // ----- timeouts and pings -----

  /** Transmissions past the retransmission timeout. */
  function Overdue(l: Lane, rto: nat, now: Time): set<nat> {
    set s | s in l.attempts && now - l.attempts[s].sent >= rto
  }

  /** Releases overdue transmissions and forgets those older than the feedback horizon. */
  function TimeOut(l: Lane, rto: nat, now: Time): Lane {
    var late, old_ := Overdue(l, rto, now), Overdue(l, FEEDBACK_HORIZON, now);
    Release(l, late + old_).(
      attempts := map s | s in l.attempts && s !in old_ ::
        if s in late then l.attempts[s].(released := true) else l.attempts[s])
  }

  // ----- data in -----

  function NewReceiver(path: PathId, lane: PathId, now: Time): Receiver {
    Receiver(path, lane, EMPTY, 0, now, now, 0, now, 0)
  }

  function ReceiverFor(t: State, path: PathId, lane: PathId, now: Time): Receiver {
    if lane in t.receivers then t.receivers[lane] else NewReceiver(path, lane, now)
  }

  function DataRefusal(t: State, path: PathId, d: Data, now: Time): Option<Cause> {
    var i := Find(t.lanes, path);
    if now < t.lastTime then Some(BadTime)
    else if d.src != t.remote || d.attempt == 0 then Some(BadEpoch)
    else if i == |t.lanes| || !t.lanes[i].Up(now) then Some(BadPath)
    else if d.lane != t.lanes[i].remoteId then Some(BadLane)
    else if |d.payload| > MAX_DATAGRAM then Some(Malformed)
    else if d.dst != t.epoch then Some(BadEpoch)
    else if d.number == 0 && (d.order != Order(false, 0) || d.payload != []) then Some(Malformed)
    else if d.number != 0 && (d.order.index == 0 || d.payload == []) then Some(Malformed)
    else if d.lane in t.receivers && t.receivers[d.lane].path != path then Some(BadLane)
    else None
  }

  /** The receiver after a frame it had not seen. */
  function Arrive(r: Receiver, d: Data, now: Time): Receiver {
    r.(receipts := r.receipts.Mark(d.attempt), bytes := r.bytes + WireBytes(d.payload),
       highAt := if d.attempt > r.receipts.high then now else r.highAt, pending := r.pending + 1)
  }

  function ReceiveData(t: State, path: PathId, d: Data, now: Time): (State, Output) {
    var refusal := DataRefusal(t, path, d, now);
    if refusal.Some? then
      (if refusal.value == BadTime then t else t.(lastTime := now), Refused(refusal.value))
    else
      var r := ReceiverFor(t, path, d.lane, now);
      var order := if d.lane in t.receivers then t.receiverOrder else t.receiverOrder + [d.lane];
      var s := t.(lastTime := now, receiverOrder := order);
      if !r.receipts.Accepts(d.attempt) then
        (s.(receivers := t.receivers[d.lane := r], duplicates := t.duplicates + 1), Duplicate)
      else
        var s' := s.(receivers := t.receivers[d.lane := Arrive(r, d, now)]);
        if d.number == 0 then (s', Quiet)
        else if !t.received.Accepts(d.number) then (s'.(duplicates := t.duplicates + 1), Duplicate)
        else
          (s'.(received := t.received.Mark(d.number), unreported := t.unreported.Mark(d.number)),
           Delivered(d.number, d.order, d.payload))
  }

  // ----- acknowledgements in -----

  function AckRefusal(t: State, path: PathId, f: Ack, now: Time): Option<Cause> {
    var i := Find(t.lanes, path);
    if now < t.lastTime then Some(BadTime)
    else if f.src != t.remote || f.revision == 0 then Some(BadEpoch)
    else if i == |t.lanes| || !t.lanes[i].Up(now) then Some(BadPath)
    else if f.lane != path then Some(BadLane)
    else if f.body.observed != t.epoch then Some(BadEpoch)
    else
      var l, a, fresh_ := t.lanes[i], f.body, f.revision > t.lanes[i].ackRevision;
      if || a.high > l.counter || a.receivedHigh > t.counter
         || (fresh_ && (a.bytes < l.ackedBytes || a.elapsed < l.ackedElapsed))
         || (!fresh_ && (a.bytes > l.ackedBytes || a.elapsed > l.ackedElapsed))
         || !l.ackReceipts.Accepts(f.revision)
      then Some(BadAck) else None
  }

  /** Sets the acknowledged flag of the given datagrams and takes them off the pending set. */
  function Confirm(t: State, numbers: set<nat>): (r: State)
    ensures r.lanes == t.lanes
  {
    t.(acked := t.acked + numbers, pending := t.pending - numbers, confirmed := t.confirmed + |t.pending * numbers|)
  }

  function Max(a: nat, b: nat): nat {
    if a > b then a else b
  }

  /** A new highest lane number forgets the bytes known to be sent through the previous one. */
  function NoteHigh(l: Lane, a: Acknowledgement): Lane {
    l.(receivedThrough := if a.high > l.receivedHigh then 0 else l.receivedThrough,
       receivedHigh := Max(l.receivedHigh, a.high))
  }

  /** The transmissions of a lane reported by the lane bitmap. */
  function Reported(l: Lane, a: Acknowledgement): set<nat> {
    set s | s in l.attempts && a.Reports(s)
  }

  /** Transmissions whose lane number the bitmap has moved past, carrying one of the given datagrams. */
  function Passed(l: Lane, a: Acknowledgement, numbers: set<nat>): set<nat> {
    set s | s in l.attempts && !a.Reports(s) && s < a.high && a.high - s >= 64
         && l.attempts[s].carried.Datagram?
         && (l.attempts[s].carried.number in numbers || a.Received(l.attempts[s].carried.number))
  }

  /**
   * The transmissions the bitmap has moved past that one sweep over the lane drops. The sweep visits
   * transmissions in no fixed order, so of those whose datagram the same sweep confirms it drops any part.
   */
  predicate Sweeps(t: State, l: Lane, a: Acknowledgement, late: set<nat>) {
    && Passed(l, a, t.acked) <= late
    && late <= Passed(l, a, t.acked + Numbers(l.attempts, Reported(l, a)))
  }

  function ConfirmReported(t: State, i: nat, a: Acknowledgement, late: set<nat>): (r: State)
    requires i < |t.lanes|
    ensures |r.lanes| == |t.lanes|
  {
    var l := t.lanes[i];
    var reported := Reported(l, a);
    var l' := Remove(l, reported + late);
    Confirm(t, Numbers(l.attempts, reported)).(
      lanes := t.lanes[i := l'.(acked := l.acked + Sum(Only(l.attempts, reported), Outstanding, l.counter))])
  }

  function Prefix(l: Lane, high: nat): set<nat> {
    set s | s in l.attempts && s <= high
  }

  /** The bytes sent through the highest reported lane number, once a fresh acknowledgement of it is matched. */
  function NoteThrough(l: Lane, a: Acknowledgement, through: nat): Lane {
    if through > 0 then l.(receivedThrough := through) else l
  }

  /** Equal totals prove that the whole prefix arrived. */
  function ConfirmPrefix(t: State, i: nat, a: Acknowledgement): (r: State)
    requires i < |t.lanes|
    ensures |r.lanes| == |t.lanes|
  {
    var l := t.lanes[i];
    if l.receivedThrough > 0 && a.high == l.receivedHigh && l.receivedThrough == a.bytes then
      var keys := Prefix(l, a.high);
      Confirm(t, Numbers(l.attempts, keys)).(
        lanes := t.lanes[i := Remove(l, keys).(acked := l.acked + Sum(Only(l.attempts, keys), Outstanding, l.counter))])
    else t
  }

  /** Transmissions of acknowledged datagrams not yet marked confirmed. */
  function Settled(l: Lane, a: Acknowledgement, acked: set<nat>): set<nat> {
    set s | s in l.attempts && l.attempts[s].carried.Datagram? && !l.attempts[s].confirmed
         && (l.attempts[s].carried.number in acked || a.Received(l.attempts[s].carried.number))
  }

  function Settle(l: Lane, a: Acknowledgement, acked: set<nat>): Lane {
    var keys := Settled(l, a, acked);
    Release(l, keys).(
      attempts := map s | s in l.attempts ::
        if s in keys then l.attempts[s].(released := true, confirmed := true) else l.attempts[s])
  }

  function SettleLanes(lanes: seq<Lane>, a: Acknowledgement, acked: set<nat>): (r: seq<Lane>)
    ensures |r| == |lanes|
    ensures forall i :: 0 <= i < |lanes| ==> r[i] == Settle(lanes[i], a, acked)
  {
    seq(|lanes|, i requires 0 <= i < |lanes| => Settle(lanes[i], a, acked))
  }

  /** The acknowledged datagrams that some lane still holds a transmission of. */
  function SettledNumbers(lanes: seq<Lane>, a: Acknowledgement, acked: set<nat>): set<nat> {
    set i, s | 0 <= i < |lanes| && s in Settled(lanes[i], a, acked) :: lanes[i].attempts[s].carried.number
  }

  function SettleAll(t: State, a: Acknowledgement): (r: State)
    ensures |r.lanes| == |t.lanes|
  {
    Confirm(t, SettledNumbers(t.lanes, a, t.acked)).(lanes := SettleLanes(t.lanes, a, t.acked))
  }

  /** The bytes sent through the acknowledged number, when a fresh acknowledgement reports a transmission of it. */
  function MatchedThrough(l: Lane, a: Acknowledgement, fresh_: bool): nat {
    if fresh_ && a.high in l.attempts && a.Reports(a.high) then l.attempts[a.high].through else 0
  }

  /** One accepted acknowledgement. */
  function ApplyAck(t: State, i: nat, a: Acknowledgement, fresh_: bool, late: set<nat>): State
    requires i < |t.lanes|
  {
    var t1 := t.(lanes := t.lanes[i := NoteHigh(t.lanes[i], a)]);
    var t2 := Confirm(t1, set n | n in t1.pending && a.Received(n));
    var through := MatchedThrough(t2.lanes[i], a, fresh_);
    var t3 := ConfirmReported(t2, i, a, late);
    var t4 :=
      if fresh_ then ConfirmPrefix(t3.(lanes := t3.lanes[i := NoteThrough(t3.lanes[i], a, through)]), i, a) else t3;
    var t5 := SettleAll(t4, a);
    if fresh_ then t5.(lanes := t5.lanes[i := t5.lanes[i].(ackedBytes := a.bytes, ackedElapsed := a.elapsed)]) else t5
  }

  function ReceiveAck(t: State, path: PathId, f: Ack, late: set<nat>, now: Time): (State, Output) {
    var refusal := AckRefusal(t, path, f, now);
    if refusal.Some? then
      (if refusal.value == BadTime then t else t.(lastTime := now), Refused(refusal.value))
    else
      var i := Find(t.lanes, path);
      var fresh_ := f.revision > t.lanes[i].ackRevision;
      var l := t.lanes[i].(ackReceipts := t.lanes[i].ackReceipts.Mark(f.revision),
                           ackRevision := Max(f.revision, t.lanes[i].ackRevision));
      (ApplyAck(t.(lastTime := now, lanes := t.lanes[i := l]), i, f.body, fresh_, late), Quiet)
  }
}
