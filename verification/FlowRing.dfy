/** The active-flow ring: a circular doubly linked list of flows with a map from flow to node. */
module FlowRings {
  import opened Basics
  import opened Packets
  import FairQueues

  class PacketFlow {
    const id: FlowId
    var packets: seq<Packet>
    var next: PacketFlow?
    var previous: PacketFlow?

    constructor (id: FlowId)
      ensures this.id == id && packets == []
    {
      this.id := id;
      packets := [];
      next, previous := null, null;
    }
  }

  function After(i: nat, n: nat): nat
    requires i < n
  {
    if i + 1 == n then 0 else i + 1
  }

  /** Following next from any node of the ring visits the nodes in order, and previous runs back. */
  ghost predicate Circular(ring: seq<PacketFlow>)
    reads ring`next, ring`previous
  {
    && Distinct(ring)
    && (forall i :: 0 <= i < |ring| ==> Linked(ring, i))
  }

  ghost predicate Linked(ring: seq<PacketFlow>, i: nat)
    requires i < |ring|
    reads ring`next, ring`previous
  {
    ring[i].next == ring[After(i, |ring|)] && ring[After(i, |ring|)].previous == ring[i]
  }

  ghost function Flows(ring: seq<PacketFlow>): (q: FairQueues.Rotation)
    reads ring`packets
    ensures |q| == |ring|
    ensures forall i :: 0 <= i < |ring| ==> q[i] == FairQueues.Flow(ring[i].id, ring[i].packets)
  {
    if ring == [] then [] else
      Flows(ring[..|ring| - 1]) + [FairQueues.Flow(ring[|ring| - 1].id, ring[|ring| - 1].packets)]
  }

  /** The map finds exactly the nodes of the ring. */
  ghost predicate Indexed(flows: map<FlowId, PacketFlow>, ring: seq<PacketFlow>) {
    && (forall f :: f in ring ==> f.id in flows && flows[f.id] == f)
    && (forall id :: id in flows ==> flows[id] in ring && flows[id].id == id)
  }

  lemma {:induction false} IndexedAppend(flows: map<FlowId, PacketFlow>, ring: seq<PacketFlow>, f: PacketFlow)
    requires Indexed(flows, ring) && f.id !in flows
    ensures Indexed(flows[f.id := f], ring + [f]) && f !in ring
  {
  }

  lemma {:induction false} IndexedDrop(flows: map<FlowId, PacketFlow>, ring: seq<PacketFlow>)
    requires Indexed(flows, ring) && ring != [] && Distinct(ring)
    ensures Indexed(flows - {ring[0].id}, ring[1..])
  {
    var f, rest := ring[0], ring[1..];
    assert ring == [f] + rest && f !in rest;
  }

  lemma {:induction false} IndexedRotate(flows: map<FlowId, PacketFlow>, ring: seq<PacketFlow>)
    requires Indexed(flows, ring) && ring != []
    ensures Indexed(flows, ring[1..] + [ring[0]])
  {
    assert ring == [ring[0]] + ring[1..];
  }

  class FairPacketQueue {
    var flows: map<FlowId, PacketFlow>
    var head: PacketFlow?
    var count: nat
    ghost var ring: seq<PacketFlow>

    ghost predicate Valid()
      reads this, ring
    {
      && Circular(ring)
      && Indexed(flows, ring)
      && (if ring == [] then head == null else head == ring[0])
      && FairQueues.Valid(Flows(ring))
      && count == FairQueues.Count(Flows(ring))
    }

    ghost function Value(): FairQueues.Rotation
      reads this`ring, ring`packets
    {
      Flows(ring)
    }

    constructor ()
      ensures Valid() && Value() == [] && ring == []
    {
      flows, head, count := map[], null, 0;
      ring := [];
    }

    method Peek() returns (p: Option<Packet>)
      requires Valid()
      ensures p == if Value() == [] then None else Some(FairQueues.Head(Value()))
    {
      if head == null {
        return None;
      }
      return Some(head.packets[0]);
    }

    /** Puts a flow that is not in the ring behind the one whose turn comes last. */
    method Append(flow: PacketFlow)
      requires Circular(ring) && flow !in ring
      requires if ring == [] then head == null else head == ring[0]
      modifies this`head, this`ring, flow`next, flow`previous, ring`next, ring`previous
      ensures ring == old(ring) + [flow] && Circular(ring) && head == ring[0]
    {
      if head == null {
        flow.next, flow.previous := flow, flow;
        head := flow;
      } else {
        assert Linked(ring, |ring| - 1);
        flow.next, flow.previous := head, head.previous;
        head.previous.next := flow;
        head.previous := flow;
      }
      ring := ring + [flow];
      forall i | 0 <= i < |ring| ensures Linked(ring, i) {
        if i < |ring| - 2 { assert old(Linked(ring, i)); }
      }
    }

    /** Starts a flow with its first datagram. */
    method Join(p: Packet)
      requires Circular(ring) && Indexed(flows, ring) && p.flow !in flows
      requires if ring == [] then head == null else head == ring[0]
      modifies this, ring`next, ring`previous
      ensures |ring| == |old(ring)| + 1 && old(ring) == ring[..|ring| - 1] && fresh(ring[|ring| - 1])
      ensures Circular(ring) && Indexed(flows, ring) && head == ring[0] && count == old(count) + 1
      ensures Value() == old(Value()) + [FairQueues.Flow(p.flow, [p])]
    {
      hide Circular, Linked, Indexed, Flows;
      var flow := new PacketFlow(p.flow);
      flow.packets := [p];
      IndexedAppend(flows, ring, flow);
      Append(flow);
      flows := flows[p.flow := flow];
      count := count + 1;
    }

    /** The node that holds a backlogged flow stands at the flow's place in the rotation. */
    lemma {:induction false} NodeOf(id: FlowId)
      requires Valid()
      ensures var i := FairQueues.Position(Value(), id);
        if id in flows then i < |ring| && flows[id] == ring[i] else i == |ring|
      ensures Distinct(ring)
    {
      if id in flows {
        var j :| 0 <= j < |ring| && ring[j] == flows[id];
        FairQueues.PositionIs(Value(), id, j);
      } else {
        assert forall i :: 0 <= i < |ring| ==> ring[i] in ring && ring[i].id != id;
      }
    }

    method Push(p: Packet) returns (coalesced: bool)
      requires Valid()
      modifies this, ring
      ensures Valid()
      ensures ring == old(ring) || (|ring| == |old(ring)| + 1 && old(ring) == ring[..|ring| - 1]
        && fresh(ring[|ring| - 1]))
      ensures Value() == FairQueues.Push(old(Value()), p)
      ensures coalesced == FairQueues.Coalesces(FairQueues.Waiting(old(Value()), p.flow), p)
    {
      hide Circular, Linked, Indexed, Flows, FairQueues.Valid, FairQueues.Count, FairQueues.Pushed;
      ghost var was := Value();
      NodeOf(p.flow);
      FairQueues.PushCount(was, p);
      if p.flow !in flows {
        Join(p);
        coalesced := false;
      } else {
        coalesced := Extend(flows[p.flow], p, FairQueues.Position(Value(), p.flow));
      }
      assert Value() == FairQueues.Push(was, p);
      assert Circular(ring) && Indexed(flows, ring);
    }

    /** Adds p to a flow, in place of its last datagram when it coalesces. */
    method Extend(flow: PacketFlow, p: Packet, ghost i: nat) returns (coalesced: bool)
      requires p.flow == flow.id && i < |ring| && flow == ring[i] && Distinct(ring)
      modifies this`count, ring`packets
      ensures Value() == old(Value())[i := FairQueues.Flow(p.flow, FairQueues.Pushed(old(Value())[i].packets, p))]
      ensures coalesced == FairQueues.Coalesces(old(Value())[i].packets, p)
      ensures count == old(count) + if coalesced then 0 else 1
    {
      hide Flows;
      var n := |flow.packets|;
      coalesced := false;
      if n >= 2 && Recognised(p.flow) {
        var previous, last := flow.packets[n - 2].ack, flow.packets[n - 1].ack;
        coalesced := last.Supersedes(previous) && p.ack.Supersedes(last);
      }
      if coalesced {
        flow.packets := flow.packets[n - 1 := p];
        assert flow.packets == old(flow.packets)[..n - 1] + [p];
      } else {
        flow.packets := flow.packets + [p];
        count := count + 1;
      }
    }

    /** Takes the flow at the head out of the ring. */
    method Unlink()
      requires Circular(ring) && ring != [] && head == ring[0]
      modifies this`head, this`ring, ring`next, ring`previous
      ensures ring == old(ring)[1..] && Circular(ring)
      ensures if ring == [] then head == null else head == ring[0]
      ensures Value() == old(Value())[1..]
    {
      hide Flows;
      var flow := head;
      head := flow.next;
      assert Linked(ring, |ring| - 1) && Linked(ring, 0);
      if flow.next == flow {
        head := null;
      } else {
        flow.previous.next := flow.next;
        flow.next.previous := flow.previous;
      }
      ring := ring[1..];
      forall i | 0 <= i < |ring| ensures Linked(ring, i) {
        assert old(Linked(ring, i + 1));
      }
    }

    /** Passes the turn to the next flow. */
    method Rotate()
      requires Circular(ring) && ring != [] && head == ring[0]
      modifies this`head, this`ring
      ensures ring == old(ring)[1..] + [old(ring)[0]] && Circular(ring) && head == ring[0]
      ensures Value() == old(Value())[1..] + [old(Value())[0]]
    {
      hide Flows;
      assert Linked(ring, 0);
      ring := ring[1..] + [ring[0]];
      head := head.next;
      forall i | 0 <= i < |ring| ensures Linked(ring, i) {
        assert old(Linked(ring, After(i, |ring|)));
      }
    }

    /** Removes the oldest datagram of the flow at the head. */
    method TakeFirst()
      requires ring != [] && head == ring[0] && Distinct(ring)
      requires head.packets != [] && count > 0
      modifies this`count, ring`packets
      ensures Value() == old(Value())[0 := FairQueues.Flow(head.id, old(head.packets)[1..])]
      ensures head.packets == old(head.packets)[1..]
      ensures count == old(count) - 1
    {
      ghost var was := Value();
      head.packets := head.packets[1..];
      count := count - 1;
      assert forall i :: 1 <= i < |ring| ==> ring[i] != head;
      assert forall i :: 0 <= i < |ring| ==>
        Value()[i] == was[0 := FairQueues.Flow(head.id, old(head.packets)[1..])][i];
    }

    lemma {:induction false} BeforePop()
      requires Valid() && Value() != []
      ensures Distinct(ring) && head == ring[0] && head.packets != [] && count > 0
      ensures Indexed(flows - {head.id}, ring[1..]) && Indexed(flows, ring[1..] + [head])
      ensures FairQueues.Count(FairQueues.Pop(Value())) == count - 1
      ensures Value()[0] == FairQueues.Flow(head.id, head.packets)
    {
      FairQueues.PopCount(Value());
      IndexedDrop(flows, ring);
      IndexedRotate(flows, ring);
    }

    lemma {:induction false} PopIs(q: FairQueues.Rotation)
      requires FairQueues.Valid(q) && q != []
      ensures var rest := q[0].packets[1..];
        FairQueues.Pop(q) == if rest == [] then q[1..] else q[1..] + [FairQueues.Flow(q[0].id, rest)]
    {
    }

    /** The flow at the head leaves when nothing waits in it, and otherwise goes to the end. */
    method PassTurn()
      requires Circular(ring) && ring != [] && head == ring[0]
      requires Indexed(flows - {head.id}, ring[1..]) && Indexed(flows, ring[1..] + [head])
      modifies this`flows, this`head, this`ring, ring`next, ring`previous
      ensures ring == old(if head.packets == [] then ring[1..] else ring[1..] + [head])
      ensures Circular(ring) && Indexed(flows, ring) && if ring == [] then head == null else head == ring[0]
      ensures Value() == old(if head.packets == [] then Value()[1..] else Value()[1..] + [Value()[0]])
    {
      hide Circular, Linked, Indexed, Flows;
      if head.packets == [] {
        flows := flows - {head.id};
        Unlink();
      } else {
        Rotate();
      }
    }

    method Pop()
      requires Valid() && Value() != []
      modifies this, ring
      ensures Valid() && (ring == old(ring)[1..] || ring == old(ring)[1..] + [old(ring)[0]])
      ensures Value() == FairQueues.Pop(old(Value()))
    {
      hide Circular, Linked, Indexed, Distinct, Flows, FairQueues.Valid, FairQueues.Count, FairQueues.Pop;
      BeforePop();
      ghost var was := Value();
      TakeFirst();
      assert Value()[1..] == was[1..];
      PopIs(was);
      PassTurn();
      assert Value() == FairQueues.Pop(was);
    }
  }
}
