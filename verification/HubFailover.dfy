/** The failover controller and the record ordering as the code runs them. */
module HubFailovers {
  import opened Packets
  import opened Failover
  import opened FailoverLaws

  /** Entry j of spec i stands behind the entries of the specs before it. */
  lemma {:induction false} FlatAt(specs: seq<Spec>, i: nat, j: nat)
    requires i < |specs| && j < |specs[i].addrs|
    ensures |Flat(specs[..i])| + j < |Flat(specs)|
    ensures Flat(specs)[|Flat(specs[..i])| + j] == Entry(i, specs[i].addrs[j])
  {
    var n := |specs| - 1;
    if i < n {
      FlatAt(specs[..n], i, j);
      assert specs[..n][..i] == specs[..i];
    }
  }

  lemma {:induction false} FlatGrows(specs: seq<Spec>, i: nat)
    requires i < |specs|
    ensures |Flat(specs[..i + 1])| == |Flat(specs[..i])| + |specs[i].addrs|
  {
    assert specs[..i + 1][..i] == specs[..i];
  }

  method FlatLen(specs: seq<Spec>) returns (n: nat)
    ensures n == |Flat(specs)|
  {
    n := 0;
    for i := 0 to |specs|
      invariant n == |Flat(specs[..i])|
    {
      FlatGrows(specs, i);
      n := n + |specs[i].addrs|;
    }
    assert specs[..|specs|] == specs;
  }

  /** flatIndexLocked: the place of the entry of that very spec, whatever the others list. */
  method FlatIndex(specs: seq<Spec>, e: Entry) returns (k: int)
    ensures k == Position(Flat(specs), e)
  {
    hide Flat;
    var flat := 0;
    FlatEmpty(specs);
    for i := 0 to |specs|
      invariant flat == |Flat(specs[..i])| <= |Flat(specs)|
      invariant forall x :: 0 <= x < flat ==> Flat(specs)[x] != e
    {
      FlatGrows(specs, i);
      for j := 0 to |specs[i].addrs|
        invariant flat == |Flat(specs[..i])| + j <= |Flat(specs)|
        invariant forall x :: 0 <= x < flat ==> Flat(specs)[x] != e
      {
        FlatAt(specs, i, j);
        if i == e.spec && specs[i].addrs[j] == e.addr {
          return flat;
        }
        flat := flat + 1;
      }
    }
    assert specs[..|specs|] == specs;
    k := -1;
  }

  lemma {:induction false} FlatEmpty(specs: seq<Spec>)
    ensures Flat(specs[..0]) == []
  {
  }

  /** entryAtLocked */
  method EntryAt(specs: seq<Spec>, k: int) returns (e: Entry)
    ensures e == At(Flat(specs), k)
  {
    hide Flat;
    if k < 0 {
      return NOWHERE;
    }
    var n := 0;
    FlatEmpty(specs);
    for i := 0 to |specs|
      invariant n == |Flat(specs[..i])| <= |Flat(specs)| && n <= k
    {
      FlatGrows(specs, i);
      for j := 0 to |specs[i].addrs|
        invariant n == |Flat(specs[..i])| + j <= |Flat(specs)| && n <= k
      {
        FlatAt(specs, i, j);
        if n == k {
          return Entry(i, specs[i].addrs[j]);
        }
        n := n + 1;
      }
    }
    assert specs[..|specs|] == specs;
    e := NOWHERE;
  }

  /** EndpointsSnapshot: the flattened list in order, marking exactly the entry at idx. */
  method Snapshot(specs: seq<Spec>, idx: int) returns (addrs: seq<AddrPort>, active: seq<bool>)
    ensures |addrs| == |active| == |Flat(specs)|
    ensures forall k :: 0 <= k < |addrs| ==> addrs[k] == Flat(specs)[k].addr && (active[k] <==> k == idx)
  {
    hide Flat;
    addrs, active := [], [];
    FlatEmpty(specs);
    for i := 0 to |specs|
      invariant |addrs| == |active| == |Flat(specs[..i])| <= |Flat(specs)|
      invariant forall k :: 0 <= k < |addrs| ==> addrs[k] == Flat(specs)[k].addr && (active[k] <==> k == idx)
    {
      FlatGrows(specs, i);
      for j := 0 to |specs[i].addrs|
        invariant |addrs| == |active| == |Flat(specs[..i])| + j <= |Flat(specs)|
        invariant forall k :: 0 <= k < |addrs| ==> addrs[k] == Flat(specs)[k].addr && (active[k] <==> k == idx)
      {
        FlatAt(specs, i, j);
        addrs, active := addrs + [specs[i].addrs[j]], active + [|active| == idx];
      }
    }
    assert specs[..|specs|] == specs;
  }

  class HubFailover {
    const settle: int
    var specs: seq<Spec>
    var active: Entry
    var idx: int
    var lastSwitch: int
    var latched: bool
    var downAdvances: nat
    var downSince: Option<int>
    var remote: Option<AddrPort>

    function Value(): Hub
      reads this
    {
      Hub(specs, active, idx, lastSwitch, latched, downAdvances, downSince, remote)
    }

    constructor (specs: seq<Spec>, settle: int, now: int)
      ensures Value() == Start(specs, now) && this.settle == settle
    {
      var first := EntryAt(specs, 0);
      var place := FlatIndex(specs, first);
      this.settle, this.specs, active, idx := settle, specs, first, place;
      lastSwitch, latched, downAdvances, downSince := now, false, 0, None;
      remote := if first.spec == -1 then None else Some(first.addr);
    }

    method UpdateResolution(spec: int, addrs: seq<AddrPort>, now: int)
      modifies this
      ensures Value() == Update(old(Value()), spec, addrs, now)
    {
      hide Flat, Position, At;
      if spec < 0 || spec >= |specs| {
        return;
      }
      specs := specs[spec := specs[spec].(addrs := addrs)];
      if active.spec == -1 {
        var head := EntryAt(specs, 0);
        if head.spec != -1 {
          active, lastSwitch, remote := head, now, Some(head.addr);
        }
      } else if spec == active.spec {
        if active.addr !in addrs && |addrs| > 0 {
          active, lastSwitch, remote := Entry(spec, addrs[0]), now, Some(addrs[0]);
        }
      }
      idx := FlatIndex(specs, active);
    }

    method RaiseExhausted() returns (raised: bool)
      modifies this`latched
      ensures latched && raised == !old(latched)
    {
      raised := !latched;
      latched := true;
    }

    method CheckStep(down: bool, now: int) returns (raised: bool)
      modifies this
      ensures (Value(), raised) == Check(old(Value()), settle, down, now)
    {
      hide Flat, Position, At;
      var total := FlatLen(specs);
      if total == 0 {
        return false;
      }
      if !down {
        downAdvances, latched, downSince := 0, false, None;
        return false;
      }
      if downSince.None? {
        downSince := Some(now);
      }
      if total < 2 {
        if now - downSince.value < settle {
          return false;
        }
        raised := RaiseExhausted();
        return;
      }
      if now - lastSwitch < settle {
        return false;
      }
      var prev := FlatIndex(specs, active);
      var next := if prev < 0 then 0 else (prev + 1) % total;
      var e := EntryAt(specs, next);
      active, idx, lastSwitch, remote := e, next, now, Some(e.addr);
      downAdvances := downAdvances + 1;
      if downAdvances >= total {
        downAdvances := 0;
        raised := RaiseExhausted();
        return;
      }
      raised := false;
    }
  }

  /** orderAddrPorts */
  method OrderAddrPorts(addrs: seq<Address>, port: nat, families: Families) returns (r: seq<AddrPort>)
    ensures r == Expansion(addrs, port, families)
  {
    var seen: set<Address> := {};
    var four, six: seq<AddrPort> := [], [];
    for i := 0 to |addrs|
      invariant forall x :: x in seen <==> x in Canonical(addrs[..i], families)
      invariant four == OfFamily(Canonical(addrs[..i], families), true, port)
      invariant six == OfFamily(Canonical(addrs[..i], families), false, port)
    {
      assert addrs[..i + 1][..i] == addrs[..i];
      var a := addrs[i];
      if a.Invalid? || !families.Allows(a) {
        continue;
      }
      var canon := Unmap(a);
      if canon in seen {
        continue;
      }
      seen := seen + {canon};
      FamilyGrows(Canonical(addrs[..i], families), canon, port);
      if canon.V4? {
        four := four + [AddrPort(canon, port)];
      } else {
        six := six + [AddrPort(canon, port)];
      }
    }
    assert addrs[..|addrs|] == addrs;
    r := four + six;
  }

  lemma {:induction false} FamilyGrows(addrs: seq<Address>, a: Address, port: nat)
    ensures forall v4 ::
      OfFamily(addrs + [a], v4, port) == OfFamily(addrs, v4, port) + if a.V4? == v4 then [AddrPort(a, port)] else []
  {
    forall v4
      ensures
        OfFamily(addrs + [a], v4, port) == OfFamily(addrs, v4, port) + if a.V4? == v4 then [AddrPort(a, port)] else []
    {
      assert (addrs + [a])[..|addrs|] == addrs;
    }
  }

  /** resolveTarget: a failed lookup, or one without a usable record, publishes nothing. */
  method ResolveTarget(hub: HubFailover, op: Op)
    requires op.Resolve?
    modifies hub
    ensures hub.Value() == Publish(old(hub.Value()), op)
  {
    if op.answer.None? {
      return;
    }
    var eps := OrderAddrPorts(op.answer.value, op.port, op.families);
    if |eps| == 0 {
      return;
    }
    hub.UpdateResolution(op.spec, eps, op.now);
  }
}
