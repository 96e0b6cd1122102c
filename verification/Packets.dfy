/** Datagrams of the bonding transport: traffic classes, TCP acknowledgement metadata, constants. */
module Packets {

  type Byte = b: nat | b < 256

  /** Nanoseconds; 0 is the zero time. */
  type Time = nat

  type PathId = nat

  /** One generation of an endpoint; the zero epoch stands for none. */
  datatype Epoch = Epoch(boot: nat, generation: nat)

  const NO_EPOCH: Epoch := Epoch(0, 0)

  const MILLISECOND: nat := 1_000_000
  const MAX_QUEUE_AGE: nat := 100 * MILLISECOND
  const MAX_PACKET_AGE: nat := 250 * MILLISECOND
  const PATH_LEASE: nat := 1000 * MILLISECOND
  const FEEDBACK_HORIZON: nat := 2000 * MILLISECOND
  const MINIMUM_RTO: nat := 60 * MILLISECOND
  const SMALL_PACKET_HEADROOM: nat := 1024
  const SMALL_PACKET: nat := 384
  const MAX_DATAGRAM: nat := 9000
  const ACK_BATCH_PACKETS: nat := 64
  const WIRE_OVERHEAD: nat := 129
  const IP_PROTOCOL_TCP: Byte := 6

  datatype Option<+T> = None | Some(value: T)

  datatype Class = Realtime | Small | Bulk

  type FlowId = f: seq<Byte> | |f| == 40 witness seq(40, _ => 0)

  /** The zero identifier marks datagrams that belong to no recognised flow. */
  predicate Recognised(flow: FlowId) {
    exists i :: 0 <= i < 40 && flow[i] != 0
  }

  type Uint32 = n: nat | n < 0x1_0000_0000

  datatype TcpAck = TcpAck(
    eligible: bool, sequence: Uint32, acknowledgement: Uint32, window: nat, trafficClass: Byte,
    timestamp: bool, tsVal: Uint32, tsEcr: Uint32)
  {
    /** A strictly newer cumulative acknowledgement that says everything the old one says. */
    predicate Supersedes(old_: TcpAck) {
      && eligible && old_.eligible && sequence == old_.sequence
      && window != 0 && old_.window != 0 && trafficClass == old_.trafficClass
      && 0 < Ahead(acknowledgement, old_.acknowledgement)
      && timestamp == old_.timestamp
      && (timestamp ==> 0 <= Ahead(tsVal, old_.tsVal) && 0 <= Ahead(tsEcr, old_.tsEcr))
    }
  }

  /** int32(a - b): the signed distance of two serial numbers. */
  function Ahead(a: Uint32, b: Uint32): (d: int)
    ensures -0x8000_0000 <= d < 0x8000_0000
    ensures (b + d - a) % 0x1_0000_0000 == 0
  {
    var d := (a - b) % 0x1_0000_0000;
    if d < 0x8000_0000 then d else d - 0x1_0000_0000
  }

  /** The delivery number of a datagram, counted separately for small and bulk traffic. */
  datatype Order = Order(interactive: bool, index: nat)

  datatype Packet = Packet(
    flow: FlowId, ack: TcpAck, class_: Class, payload: seq<Byte>, created: Time, queueDeadline: Time,
    number: nat, order: Order, repairDeadline: Time,
    lastSent: Time, lastPath: PathId, lastLaneNumber: nat, attempts: nat)

  function Classify(length: nat, flow: FlowId, ack: TcpAck): Class {
    if length > SMALL_PACKET then Bulk
    else if flow[1] == IP_PROTOCOL_TCP || ack.eligible then Small
    else Realtime
  }

  function NewPacket(payload: seq<Byte>, flow: FlowId, ack: TcpAck, now: Time, deadline: Time): Packet {
    Packet(flow, ack, Classify(|payload|, flow, ack), payload, now, deadline, 0, Order(false, 0), 0, 0, 0, 0, 0)
  }

  function WireBytes(payload: seq<Byte>): nat {
    |payload| + WIRE_OVERHEAD
  }
}
