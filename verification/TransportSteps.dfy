/** Every step a transport takes, as one operation with its guard, its effect and its output. */
module TransportSteps {
  import opened Packets
  import FairQueues
  import opened TransportState

  /**
   * Calls by the owner, frames received, and the moves that one Poll is made of. What the lane
   * control decides (which lane, which timeout, which acknowledgement interval, whether the drop
   * schedule fires) is a parameter, so every policy is covered.
   */
  datatype Op =
    | SetRemoteOp(epoch: Epoch, adopted: bool)
    | PathOp(id: PathId, remoteId: PathId, now: Time)
    | DisableOp(id: PathId)
    | EnqueueOp(payload: seq<Byte>, flow: FlowId, ack: TcpAck, age: nat, now: Time)
    | DataOp(path: PathId, data: Data, now: Time)
    | AckOp(path: PathId, frame: Ack, late: set<nat>, now: Time)
    // moves of Poll
    | EmitOp(lane: PathId, interval: nat, now: Time)
    | TimeOutOp(i: nat, rto: nat, now: Time)
    | PingOp(i: nat, interval: nat, now: Time)
    | ForgetOp(n: nat, now: Time)
    | ExpireOp(n: nat, now: Time)
    | MoveOp(n: nat, i: nat, now: Time)
    | RepairOp(n: nat, i: nat, rto: nat, now: Time)
    | SendOp(c: Class, i: nat, now: Time)
    | CopyOp(n: nat, i: nat, now: Time)
    | DropOp(c: Class, now: Time)

  /** A live numbered datagram that may be transmitted again. */
  predicate Repairable(t: State, n: nat, i: nat, now: Time) {
    && i < |t.lanes| && t.lanes[i].Up(now)
    && n in t.pendingOrder && n in t.packets && n !in t.acked && now <= t.packets[n].repairDeadline
  }

  /** The datagram at the head of a queue. */
  function HeadOf(t: State, c: Class): Option<Packet> {
    match c
    case Bulk => if t.bulk == [] then None else Some(t.bulk[0])
    case Realtime => if t.realtime == [] || t.realtime[0].packets == [] then None else Some(t.realtime[0].packets[0])
    case Small => if t.small == [] || t.small[0].packets == [] then None else Some(t.small[0].packets[0])
  }

  function PopQueue(t: State, c: Class): State
    requires FairQueues.Valid(t.realtime) && FairQueues.Valid(t.small) && HeadOf(t, c).Some?
  {
    match c
    case Bulk => t.(bulk := t.bulk[1..])
    case Realtime => t.(realtime := FairQueues.Pop(t.realtime))
    case Small => t.(small := FairQueues.Pop(t.small))
  }

  ghost predicate QueuesValid(t: State) {
    FairQueues.Valid(t.realtime) && FairQueues.Valid(t.small)
  }

  ghost predicate Enabled(t: State, op: Op) {
    && QueuesValid(t)
    && match op
    case SetRemoteOp(_, _) => true
    case PathOp(_, _, now) => t.lastTime <= now
    case DisableOp(_) => true
    case EnqueueOp(_, _, _, _, now) => t.lastTime <= now
    case DataOp(_, _, _) => true
    case AckOp(path, f, late, now) =>
      AckRefusal(t, path, f, now).None? ==> Sweeps(t, t.lanes[Find(t.lanes, path)], f.body, late)
    case EmitOp(lane, interval, now) =>
      && t.lastTime <= now && lane in t.receivers
      && (var r, i := t.receivers[lane], Find(t.lanes, t.receivers[lane].path);
          && i < |t.lanes| && t.lanes[i].Up(now)
          && (r.pending > 0 || Oldest(t.unreported) != 0) && AckDue(r, interval, now))
    case TimeOutOp(i, rto, now) => t.lastTime <= now && i < |t.lanes|
    case PingOp(i, interval, now) =>
      t.lastTime <= now && i < |t.lanes| && t.lanes[i].Up(now) && now - t.lanes[i].lastTransmit >= interval
    case ForgetOp(n, now) => t.lastTime <= now && n in t.pendingOrder && n in t.acked
    case ExpireOp(n, now) =>
      t.lastTime <= now && n in t.pendingOrder && n in t.packets && n !in t.acked && now > t.packets[n].repairDeadline
    case MoveOp(n, i, now) =>
      && t.lastTime <= now && Repairable(t, n, i, now)
      && t.packets[n].class_ == Realtime && t.packets[n].attempts == 1 && t.lanes[i].id != t.packets[n].lastPath
    case RepairOp(n, i, rto, now) =>
      && t.lastTime <= now && Repairable(t, n, i, now)
      && now - t.packets[n].lastSent >= rto && t.packets[n].attempts < 4
    case SendOp(c, i, now) =>
      && t.lastTime <= now && i < |t.lanes| && t.lanes[i].Up(now)
      && HeadOf(t, c).Some? && now <= HeadOf(t, c).value.queueDeadline
    case CopyOp(n, i, now) =>
      && t.lastTime <= now && Repairable(t, n, i, now)
      && t.packets[n].class_ == Realtime && t.packets[n].attempts == 1 && t.packets[n].lastSent == now
      && t.lanes[i].id != t.packets[n].lastPath
    case DropOp(c, now) => t.lastTime <= now && HeadOf(t, c).Some?
  }

  function Step(t: State, op: Op): State
    requires Enabled(t, op)
  {
    match op
    case SetRemoteOp(epoch, adopted) => SetRemote(t, epoch, adopted)
    case PathOp(id, remoteId, now) => Path(t, id, remoteId, now)
    case DisableOp(id) => Disable(t, id)
    case EnqueueOp(payload, flow, ack, age, now) => Enqueue(t, payload, flow, ack, age, now)
    case DataOp(path, data, now) => ReceiveData(t, path, data, now).0
    case AckOp(path, f, late, now) => ReceiveAck(t, path, f, late, now).0
    case EmitOp(lane, _, now) => EmitAck(t, lane, now).(lastTime := now)
    case TimeOutOp(i, rto, now) => t.(lanes := t.lanes[i := TimeOut(t.lanes[i], rto, now)], lastTime := now)
    case PingOp(i, _, now) =>
      t.(lanes := t.lanes[i := BeginAttempt(t.lanes[i], Ping, WIRE_OVERHEAD, now)], lastTime := now)
    case ForgetOp(n, now) => t.(pendingOrder := Without(t.pendingOrder, n), pending := t.pending - {n}, lastTime := now)
    case ExpireOp(n, now) =>
      t.(pendingOrder := Without(t.pendingOrder, n), pending := t.pending - {n}, expired := t.expired + 1,
        lastTime := now)
    case MoveOp(n, i, now) => Transmit(t, n, i, now).(lastTime := now)
    case RepairOp(n, i, _, now) => Transmit(t, n, i, now).(lastTime := now)
    case SendOp(c, i, now) => SendFirst(PopQueue(t, c), HeadOf(t, c).value, i, now).(lastTime := now)
    case CopyOp(n, i, now) => Transmit(t, n, i, now).(lastTime := now)
    case DropOp(c, now) => PopQueue(t, c).(drops := t.drops + 1, lastTime := now)
  }

  function Out(t: State, op: Op): Output
    requires Enabled(t, op)
  {
    match op
    case DataOp(path, data, now) => ReceiveData(t, path, data, now).1
    case AckOp(path, f, late, now) => ReceiveAck(t, path, f, late, now).1
    case EmitOp(lane, _, now) => SentAck(BuildAck(t, t.receivers[lane], now))
    case PingOp(i, _, now) => SentData(PingData(t, i))
    case MoveOp(n, i, now) => SentData(TransmittedData(t, n, i))
    case RepairOp(n, i, _, now) => SentData(TransmittedData(t, n, i))
    case CopyOp(n, i, now) => SentData(TransmittedData(t, n, i))
    case SendOp(c, i, now) =>
      SentData(TransmittedData(Register(PopQueue(t, c), HeadOf(t, c).value, now), t.counter + 1, i))
    case _ => Quiet
  }

  function PingData(t: State, i: nat): Data
    requires i < |t.lanes|
  {
    Data(t.epoch, t.remote, t.lanes[i].id, t.lanes[i].counter + 1, 0, Order(false, 0), [])
  }
}
