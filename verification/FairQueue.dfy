/** The rotation of backlogged flows that small datagrams are taken from, by value. */
module FairQueues {
  import opened Packets

  /** One backlogged flow with its datagrams, oldest first. */
  datatype Flow = Flow(id: FlowId, packets: seq<Packet>)

  /** The backlogged flows in the order of their turns. */
  type Rotation = seq<Flow>

  ghost predicate Valid(q: Rotation) {
    && (forall i :: 0 <= i < |q| ==> q[i].packets != [] && forall p :: p in q[i].packets ==> p.flow == q[i].id)
    && (forall i, j :: 0 <= i < j < |q| ==> q[i].id != q[j].id)
  }

  function Count(q: Rotation): nat {
    if q == [] then 0 else |q[0].packets| + Count(q[1..])
  }

  function Ids(q: Rotation): seq<FlowId> {
    seq(|q|, i requires 0 <= i < |q| => q[i].id)
  }

  /** The position of a flow in the rotation, the length when it has no backlog. */
  function Position(q: Rotation, id: FlowId): (i: nat)
    ensures i <= |q|
    ensures i < |q| ==> q[i].id == id
    ensures forall j :: 0 <= j < i ==> q[j].id != id
  {
    if q == [] || q[0].id == id then 0 else 1 + Position(q[1..], id)
  }

  /** The datagrams waiting in one flow. */
  function Waiting(q: Rotation, id: FlowId): seq<Packet> {
    var i := Position(q, id);
    if i < |q| then q[i].packets else []
  }

  /** Whether p takes the place of the last datagram of its flow: the middle of three advancing acknowledgements. */
  predicate Coalesces(waiting: seq<Packet>, p: Packet) {
    && |waiting| >= 2 && Recognised(p.flow)
    && waiting[|waiting| - 1].ack.Supersedes(waiting[|waiting| - 2].ack)
    && p.ack.Supersedes(waiting[|waiting| - 1].ack)
  }

  function Pushed(waiting: seq<Packet>, p: Packet): seq<Packet> {
    if Coalesces(waiting, p) then waiting[..|waiting| - 1] + [p] else waiting + [p]
  }

  function Push(q: Rotation, p: Packet): (r: Rotation)
    ensures Valid(q) ==> Valid(r)
  {
    var i := Position(q, p.flow);
    if i < |q| then q[i := Flow(p.flow, Pushed(q[i].packets, p))] else q + [Flow(p.flow, [p])]
  }

  function Head(q: Rotation): Packet
    requires Valid(q) && q != []
  {
    q[0].packets[0]
  }

  function Pop(q: Rotation): (r: Rotation)
    requires Valid(q) && q != []
    ensures Valid(r)
  {
    var rest := q[0].packets[1..];
    if rest == [] then q[1..] else q[1..] + [Flow(q[0].id, rest)]
  }

  lemma {:induction false} CountAppend(q: Rotation, r: Rotation)
    ensures Count(q + r) == Count(q) + Count(r)
  {
    if q == [] {
      assert q + r == r;
    } else {
      CountAppend(q[1..], r);
      assert (q + r)[1..] == q[1..] + r;
    }
  }

  lemma {:induction false} CountUpdate(q: Rotation, i: nat, f: Flow)
    requires i < |q|
    ensures Count(q[i := f]) == Count(q) - |q[i].packets| + |f.packets|
  {
    if i == 0 {
      assert q[0 := f][1..] == q[1..];
    } else {
      CountUpdate(q[1..], i - 1, f);
      assert q[i := f][1..] == q[1..][i - 1 := f];
    }
  }

  lemma {:induction false} PositionIs(q: Rotation, id: FlowId, i: nat)
    requires Valid(q) && i < |q| && q[i].id == id
    ensures Position(q, id) == i
  {
  }

  /** A push adds one datagram unless it coalesces, and keeps the order of turns. */
  lemma {:induction false} PushCount(q: Rotation, p: Packet)
    requires Valid(q)
    ensures Count(Push(q, p)) == Count(q) + (if Coalesces(Waiting(q, p.flow), p) then 0 else 1)
    ensures Ids(q) <= Ids(Push(q, p)) <= Ids(q) + [p.flow]
  {
    var i := Position(q, p.flow);
    if i < |q| {
      CountUpdate(q, i, Flow(p.flow, Pushed(q[i].packets, p)));
    } else {
      CountAppend(q, [Flow(p.flow, [p])]);
    }
  }

  /** A push changes the datagrams waiting in its own flow and in no other. */
  lemma {:induction false} PushLaw(q: Rotation, p: Packet, id: FlowId)
    requires Valid(q)
    ensures Waiting(Push(q, p), id) == if id == p.flow then Pushed(Waiting(q, id), p) else Waiting(q, id)
  {
    var i, q' := Position(q, p.flow), Push(q, p);
    assert q'[i].id == p.flow;
    if id == p.flow {
      PositionIs(q', id, i);
    } else {
      var j, k := Position(q, id), Position(q', id);
      if j < |q| { PositionIs(q', id, j); }
      if k < |q'| { PositionIs(q, id, k); }
    }
  }

  lemma {:induction false} PopCount(q: Rotation)
    requires Valid(q) && q != []
    ensures Count(Pop(q)) == Count(q) - 1
    ensures Ids(q)[1..] <= Ids(Pop(q))
  {
    CountAppend(q[1..], [Flow(q[0].id, q[0].packets[1..])]);
  }

  /** A pop takes one datagram, the oldest of the flow whose turn it is, and touches no other flow. */
  lemma {:induction false} PopLaw(q: Rotation, id: FlowId)
    requires Valid(q) && q != []
    ensures Waiting(q, id) == (if id == q[0].id then [Head(q)] else []) + Waiting(Pop(q), id)
  {
    var q' := Pop(q);
    var j, k := Position(q, id), Position(q', id);
    if id == q[0].id {
      if |q[0].packets| > 1 {
        PositionIs(q', id, |q'| - 1);
      } else {
        assert forall i :: 0 <= i < |q'| ==> q'[i] == q[i + 1];
      }
    } else {
      if j < |q| { PositionIs(q', id, j - 1); }
      if k < |q'| { assert k < |q| - 1 && q'[k] == q[k + 1]; PositionIs(q, id, k + 1); }
    }
  }

  // ----- runs of pushes and pops -----

  /** One queue operation; popping an empty queue does nothing. */
  datatype Op = PushOp(packet: Packet) | PopOp

  function Step(q: Rotation, op: Op): (r: Rotation)
    requires Valid(q)
    ensures Valid(r)
  {
    match op
    case PushOp(p) => Push(q, p)
    case PopOp => if q == [] then q else Pop(q)
  }

  function Run(q: Rotation, ops: seq<Op>): (r: Rotation)
    requires Valid(q)
    ensures Valid(r)
    decreases |ops|
  {
    if ops == [] then q else Run(Step(q, ops[0]), ops[1..])
  }

  /** The flows served by a run, one entry a turn. */
  function Served(q: Rotation, ops: seq<Op>): seq<FlowId>
    requires Valid(q)
    decreases |ops|
  {
    if ops == [] then [] else
      (if ops[0].PopOp? && q != [] then [q[0].id] else []) + Served(Step(q, ops[0]), ops[1..])
  }

  function Pops(ops: seq<Op>): nat {
    if ops == [] then 0 else (if ops[0].PopOp? then 1 else 0) + Pops(ops[1..])
  }

  /** Whatever is pushed meanwhile, the next turns go to the flows in rotation order, one each. */
  lemma {:induction false} TurnsInOrder(q: Rotation, ops: seq<Op>)
    requires Valid(q) && Pops(ops) < |q|
    ensures Served(q, ops) == Ids(q)[..Pops(ops)]
    ensures |Run(q, ops)| > 0 && Run(q, ops)[0].id == q[Pops(ops)].id
    decreases |ops|
  {
    hide Valid, Push, Pop;
    if ops != [] {
      var q', k := Step(q, ops[0]), Pops(ops[1..]);
      if ops[0].PushOp? {
        PushCount(q, ops[0].packet);
        assert Ids(q)[k] == q[k].id;
        PrefixTake(Ids(q), Ids(q'), k);
      } else {
        PopCount(q);
        assert |Ids(q)[1..]| == |q| - 1;
        assert Ids(q)[1..][k] == q[k + 1].id;
        PrefixTake(Ids(q)[1..], Ids(q'), k);
        assert Ids(q)[..k + 1] == [q[0].id] + Ids(q)[1..][..k];
      }
      TurnsInOrder(q', ops[1..]);
      assert Ids(q')[k] == q'[k].id;
    }
  }

  lemma {:induction false} PrefixTake<T>(a: seq<T>, b: seq<T>, k: nat)
    requires a <= b && k < |a|
    ensures b[..k] == a[..k] && b[k] == a[k]
  {
  }

  /**
   * Fairness. Between two consecutive turns of a flow that stays backlogged, whatever is pushed
   * meanwhile, every other flow that was backlogged gets exactly one turn and no flow that joined
   * later gets any.
   */
  lemma {:induction false} EqualTurns(q: Rotation, ops: seq<Op>)
    requires Valid(q) && q != [] && |q[0].packets| > 1
    requires Pops(ops) == |q| - 1
    ensures Served(Pop(q), ops) == Ids(q)[1..]
    ensures |Run(Pop(q), ops)| > 0 && Run(Pop(q), ops)[0].id == q[0].id
  {
    hide Served, Run, Pops;
    TurnsInOrder(Pop(q), ops);
    assert Ids(Pop(q))[..|q| - 1] == Ids(q)[1..];
  }

  // ----- what coalescing may drop -----

  /** The datagrams of one flow pushed by a run, in order. */
  function PushedTo(ops: seq<Op>, id: FlowId): seq<Packet> {
    if ops == [] then [] else
      PushedTo(ops[..|ops| - 1], id)
      + match ops[|ops| - 1] { case PushOp(p) => if p.flow == id then [p] else [] case PopOp => [] }
  }

  /** The datagrams of one flow popped by a run from an empty queue, in order. */
  function PoppedFrom(ops: seq<Op>, id: FlowId): seq<Packet> {
    if ops == [] then [] else
      var q := RunBack(ops[..|ops| - 1]);
      PoppedFrom(ops[..|ops| - 1], id)
      + if ops[|ops| - 1].PopOp? && q != [] && q[0].id == id then [Head(q)] else []
  }

  /** The queue after a run from empty. */
  function RunBack(ops: seq<Op>): (q: Rotation)
    ensures Valid(q)
  {
    if ops == [] then [] else Step(RunBack(ops[..|ops| - 1]), ops[|ops| - 1])
  }

  /**
   * kept is pushed without some datagrams; each one left out is superseded by the datagram pushed
   * right after it.
   */
  ghost predicate Thinned(pushed: seq<Packet>, kept: seq<Packet>) {
    if pushed == [] then kept == [] else
      var p, k := pushed[..|pushed| - 1], |kept| - 1;
      && kept != [] && kept[k] == pushed[|p|]
      && (|| Thinned(p, kept[..k])
          || (p != [] && k > 0 && pushed[|p|].ack.Supersedes(p[|p| - 1].ack) && Thinned(p, kept[..k] + [p[|p| - 1]])))
  }

  /** Thinning never leaves out the first datagram or the last. */
  lemma {:induction false} ThinnedEnds(pushed: seq<Packet>, kept: seq<Packet>)
    requires Thinned(pushed, kept) && pushed != []
    ensures kept != [] && kept[0] == pushed[0] && kept[|kept| - 1] == pushed[|pushed| - 1]
    ensures |kept| <= |pushed|
  {
    var p, k := pushed[..|pushed| - 1], |kept| - 1;
    if Thinned(p, kept[..k]) {
      if p != [] { ThinnedEnds(p, kept[..k]); }
    } else {
      ThinnedEnds(p, kept[..k] + [p[|p| - 1]]);
    }
  }

  lemma {:induction false} FlowPush(before: seq<Op>, p: Packet, id: FlowId)
    ensures var ops := before + [PushOp(p)];
      && PushedTo(ops, id) == PushedTo(before, id) + (if p.flow == id then [p] else [])
      && PoppedFrom(ops, id) == PoppedFrom(before, id)
      && Waiting(RunBack(ops), id) ==
         if p.flow == id then Pushed(Waiting(RunBack(before), id), p) else Waiting(RunBack(before), id)
  {
    hide Valid, Push, Pop, Waiting;
    var ops := before + [PushOp(p)];
    assert ops[..|ops| - 1] == before;
    PushLaw(RunBack(before), p, id);
    assert PoppedFrom(ops, id) == PoppedFrom(before, id) + [];
  }

  lemma {:induction false} FlowPop(before: seq<Op>, id: FlowId)
    ensures var ops := before + [PopOp];
      && PushedTo(ops, id) == PushedTo(before, id)
      && PoppedFrom(ops, id) + Waiting(RunBack(ops), id) == PoppedFrom(before, id) + Waiting(RunBack(before), id)
  {
    hide Valid, Push, Pop, Waiting;
    var ops := before + [PopOp];
    assert ops[..|ops| - 1] == before;
    assert PushedTo(ops, id) == PushedTo(before, id) + [];
    if RunBack(before) != [] { PopLaw(RunBack(before), id); }
  }

  /** What any run pops from a flow, followed by what still waits in it, is what was pushed to it, thinned. */
  lemma {:induction false} EachFlowIsThinned(ops: seq<Op>, id: FlowId)
    ensures Thinned(PushedTo(ops, id), PoppedFrom(ops, id) + Waiting(RunBack(ops), id))
  {
    hide PushedTo, PoppedFrom, RunBack, Waiting, Pushed, Thinned;
    if ops == [] {
      NothingThinned(id);
    } else {
      var before, op := ops[..|ops| - 1], ops[|ops| - 1];
      EachFlowIsThinned(before, id);
      assert ops == before + [op];
      if op.PushOp? {
        FlowPush(before, op.packet, id);
        ThinnedPush(PushedTo(before, id), PoppedFrom(before, id), Waiting(RunBack(before), id), op.packet);
        assert PushedTo(before, id) + [] == PushedTo(before, id);
      } else {
        FlowPop(before, id);
      }
    }
  }

  lemma {:induction false} NothingThinned(id: FlowId)
    ensures Thinned(PushedTo([], id), PoppedFrom([], id) + Waiting(RunBack([]), id))
  {
  }

  lemma {:induction false} ThinnedPush(pushed: seq<Packet>, popped: seq<Packet>, waiting: seq<Packet>, p: Packet)
    requires Thinned(pushed, popped + waiting)
    ensures Thinned(pushed + [p], popped + Pushed(waiting, p))
  {
    var kept, kept' := popped + waiting, popped + Pushed(waiting, p);
    assert (pushed + [p])[..|pushed|] == pushed;
    if Coalesces(waiting, p) {
      assert kept == kept'[..|kept'| - 1] + [waiting[|waiting| - 1]];
    } else {
      assert kept'[..|kept|] == kept;
    }
  }

  /** The k-th of three datagrams in a row is superseded by the next, and that by the one after. */
  predicate Advancing(waiting: seq<Packet>, k: nat) {
    k + 2 < |waiting|
    && waiting[k + 1].ack.Supersedes(waiting[k].ack) && waiting[k + 2].ack.Supersedes(waiting[k + 1].ack)
  }

  lemma {:induction false} PushedAdvances(waiting: seq<Packet>, p: Packet, k: nat)
    requires Recognised(p.flow) && forall j: nat :: !Advancing(waiting, j)
    ensures !Advancing(Pushed(waiting, p), k)
  {
    var n := |waiting|;
    assert !Advancing(waiting, k);
    assert Coalesces(waiting, p) && k + 3 == n ==> !Advancing(waiting, n - 3);
  }

  /**
   * Coalescing is complete: in no state of any run do three datagrams in a row wait in a flow, each acknowledging
   * strictly more than the one before. That no others are left out is EachFlowIsThinned.
   */
  lemma {:induction false} NeverThreeAdvancing(ops: seq<Op>, id: FlowId, k: nat)
    requires Recognised(id)
    ensures !Advancing(Waiting(RunBack(ops), id), k)
  {
    hide Valid, Push, Pop, Waiting, Pushed, Advancing;
    if ops == [] {
      NothingWaits(id, k);
    } else {
      var before, op := ops[..|ops| - 1], ops[|ops| - 1];
      var w := Waiting(RunBack(before), id);
      forall j: nat ensures !Advancing(w, j) { NeverThreeAdvancing(before, id, j); }
      if op.PushOp? {
        PushLaw(RunBack(before), op.packet, id);
        if op.packet.flow == id { PushedAdvances(w, op.packet, k); }
      } else if RunBack(before) != [] {
        PopLaw(RunBack(before), id);
        PoppedAdvances(w, Waiting(RunBack(ops), id), k);
      }
    }
  }

  lemma {:induction false} NothingWaits(id: FlowId, k: nat)
    ensures !Advancing(Waiting(RunBack([]), id), k)
  {
  }

  lemma {:induction false} PoppedAdvances(waiting: seq<Packet>, rest: seq<Packet>, k: nat)
    requires waiting == rest || (waiting != [] && rest == waiting[1..])
    requires forall j: nat :: !Advancing(waiting, j)
    ensures !Advancing(rest, k)
  {
    if rest != waiting { assert !Advancing(waiting, k + 1); }
  }
}
