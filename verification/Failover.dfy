/** The hub failover controller: the flattened endpoint list, resolution updates and checks as values. */
module Failover {
  import opened Basics
  import opened Packets

  /** A textual or resolved address; Mapped is an IPv4 address in IPv6 form. */
  datatype Address = Invalid | V4(bits: nat) | V6(bits: nat) | Mapped(bits: nat)

  datatype AddrPort = AddrPort(addr: Address, port: nat)

  /** One configured endpoint and its current expansion. */
  datatype Spec = Spec(isName: bool, addrs: seq<AddrPort>)

  /** An endpoint is identified by its owning spec and its address, never by the address alone. */
  datatype Entry = Entry(spec: int, addr: AddrPort)

  const NOWHERE: Entry := Entry(-1, AddrPort(Invalid, 0))

  /** remote is where the bond was last pointed; downSince is empty while no outage is under way. */
  datatype Hub = Hub(
    specs: seq<Spec>, active: Entry, idx: int, lastSwitch: int, latched: bool, downAdvances: nat,
    downSince: Option<int>, remote: Option<AddrPort>)

  // ----- the flattened list -----

  function Tag(spec: int, addrs: seq<AddrPort>): (r: seq<Entry>)
    ensures |r| == |addrs| && forall i :: 0 <= i < |r| ==> r[i] == Entry(spec, addrs[i])
  {
    seq(|addrs|, i requires 0 <= i < |addrs| => Entry(spec, addrs[i]))
  }

  function Flat(specs: seq<Spec>): seq<Entry> {
    if specs == [] then [] else Flat(specs[..|specs| - 1]) + Tag(|specs| - 1, specs[|specs| - 1].addrs)
  }

  /** The first place of an entry, or -1. */
  function Position(list: seq<Entry>, e: Entry): (k: int)
    ensures -1 <= k < |list|
    ensures k == -1 <==> e !in list
    ensures k >= 0 ==> list[k] == e && forall j :: 0 <= j < k ==> list[j] != e
  {
    if list == [] then -1 else
      var k := Position(list[..|list| - 1], e);
      assert list == list[..|list| - 1] + [list[|list| - 1]];
      if k >= 0 then k else if list[|list| - 1] == e then |list| - 1 else -1
  }

  function At(list: seq<Entry>, k: int): Entry {
    if 0 <= k < |list| then list[k] else NOWHERE
  }

  ghost predicate DistinctSpecs(specs: seq<Spec>) {
    forall i :: 0 <= i < |specs| ==> Distinct(specs[i].addrs)
  }

  lemma {:induction false} FlatEntries(specs: seq<Spec>)
    ensures forall e :: e in Flat(specs) <==> 0 <= e.spec < |specs| && e.addr in specs[e.spec].addrs
  {
    if specs != [] {
      var n := |specs| - 1;
      FlatEntries(specs[..n]);
      forall e ensures e in Tag(n, specs[n].addrs) <==> e.spec == n && e.addr in specs[n].addrs {
        TagEntries(n, specs[n].addrs, e);
      }
    }
  }

  lemma {:induction false} TagEntries(spec: int, addrs: seq<AddrPort>, e: Entry)
    ensures e in Tag(spec, addrs) <==> e.spec == spec && e.addr in addrs
  {
    if e.spec == spec && e.addr in addrs {
      var i :| 0 <= i < |addrs| && addrs[i] == e.addr;
      assert Tag(spec, addrs)[i] == e;
    }
  }

  /** Duplicate addresses of different specs stay different entries. */
  lemma {:induction false} FlatDistinct(specs: seq<Spec>)
    requires DistinctSpecs(specs)
    ensures Distinct(Flat(specs))
  {
    if specs != [] {
      var n := |specs| - 1;
      FlatDistinct(specs[..n]);
      FlatEntries(specs[..n]);
      var before, tagged := Flat(specs[..n]), Tag(n, specs[n].addrs);
      assert forall i :: 0 <= i < |before| ==> before[i] in before;
      assert Distinct(tagged);
    }
  }

  lemma {:induction false} PositionOf(list: seq<Entry>, k: nat)
    requires Distinct(list) && k < |list|
    ensures Position(list, list[k]) == k
  {
    var p := Position(list, list[k]);
    assert list[k] in list;
  }

  // ----- the steps -----

  function Start(specs: seq<Spec>, now: int): Hub {
    var first := At(Flat(specs), 0);
    Hub(specs, first, Position(Flat(specs), first), now, false, 0, None,
        if first.spec == -1 then None else Some(first.addr))
  }

  /** updateResolution */
  function Update(h: Hub, spec: int, addrs: seq<AddrPort>, now: int): Hub {
    if !(0 <= spec < |h.specs|) then h else
      var specs := h.specs[spec := h.specs[spec].(addrs := addrs)];
      var g := h.(specs := specs);
      var r :=
        if h.active.spec == -1 then
          var head := At(Flat(specs), 0);
          if head.spec != -1 then g.(active := head, lastSwitch := now, remote := Some(head.addr)) else g
        else if spec == h.active.spec && h.active.addr !in addrs && addrs != [] then
          g.(active := Entry(spec, addrs[0]), lastSwitch := now, remote := Some(addrs[0]))
        else g;
      r.(idx := Position(Flat(specs), r.active))
  }

  /** The place the next advance goes to. */
  function Next(list: seq<Entry>, active: Entry): (k: nat)
    requires list != []
    ensures k < |list|
  {
    var prev := Position(list, active);
    if prev < 0 then 0 else (prev + 1) % |list|
  }

  predicate Raises(h: Hub) { !h.latched }

  /** A check takes an advance: an outage, at least two endpoints, and the active one had its time to settle. */
  predicate Advances(h: Hub, settle: int, down: bool, now: int) {
    down && |Flat(h.specs)| >= 2 && now - h.lastSwitch >= settle
  }

  /** checkLocked; the flag says that exhaustion was raised. */
  function Check(h: Hub, settle: int, down: bool, now: int): (Hub, bool) {
    var list := Flat(h.specs);
    if |list| == 0 then (h, false)
    else if !down then (h.(downAdvances := 0, latched := false, downSince := None), false)
    else
      var g := if h.downSince.None? then h.(downSince := Some(now)) else h;
      if |list| < 2 then
        if now - g.downSince.value < settle then (g, false) else (g.(latched := true), Raises(h))
      else if now - h.lastSwitch < settle then (g, false)
      else
        var k := Next(list, h.active);
        var moved := g.(active := At(list, k), idx := k, lastSwitch := now, remote := Some(At(list, k).addr));
        if h.downAdvances + 1 >= |list|
        then (moved.(downAdvances := 0, latched := true), Raises(h))
        else (moved.(downAdvances := h.downAdvances + 1), false)
  }

  // ----- resolution -----

  function Unmap(a: Address): Address { if a.Mapped? then V4(a.bits) else a }

  datatype Families = Families(v4: bool, v6: bool) {
    predicate Allows(a: Address) { if Unmap(a).V4? then v4 else v6 }
  }

  predicate Usable(a: Address, families: Families) { !a.Invalid? && families.Allows(a) }

  /** The usable records in canonical form, each once, in resolver order. */
  function Canonical(addrs: seq<Address>, families: Families): seq<Address> {
    if addrs == [] then [] else
      var rest, a := Canonical(addrs[..|addrs| - 1], families), addrs[|addrs| - 1];
      if Usable(a, families) && Unmap(a) !in rest then rest + [Unmap(a)] else rest
  }

  /** The records of one family with the port, in order. */
  function OfFamily(addrs: seq<Address>, v4: bool, port: nat): seq<AddrPort> {
    if addrs == [] then [] else
      var rest, a := OfFamily(addrs[..|addrs| - 1], v4, port), addrs[|addrs| - 1];
      if a.V4? == v4 then rest + [AddrPort(a, port)] else rest
  }

  /** orderAddrPorts, as a function of the answer: an unchanged answer gives an unchanged expansion. */
  function Expansion(addrs: seq<Address>, port: nat, families: Families): seq<AddrPort> {
    OfFamily(Canonical(addrs, families), true, port) + OfFamily(Canonical(addrs, families), false, port)
  }

  lemma {:induction false} CanonicalIs(addrs: seq<Address>, families: Families)
    ensures Distinct(Canonical(addrs, families))
    ensures forall x :: x in Canonical(addrs, families) <==>
      exists a :: a in addrs && Usable(a, families) && Unmap(a) == x
  {
    if addrs != [] {
      CanonicalIs(addrs[..|addrs| - 1], families);
      assert addrs == addrs[..|addrs| - 1] + [addrs[|addrs| - 1]];
    }
  }

  lemma {:induction false} OfFamilyIs(addrs: seq<Address>, v4: bool, port: nat)
    requires Distinct(addrs)
    ensures Distinct(OfFamily(addrs, v4, port))
    ensures forall x :: x in OfFamily(addrs, v4, port) <==> x.port == port && x.addr in addrs && x.addr.V4? == v4
  {
    if addrs != [] {
      var rest, last := addrs[..|addrs| - 1], addrs[|addrs| - 1];
      OfFamilyIs(rest, v4, port);
      assert addrs == rest + [last];
      assert last !in rest;
    }
  }

  /** The expansion holds exactly the usable records, each once, IPv4 before IPv6. */
  lemma {:induction false} ExpansionIs(addrs: seq<Address>, port: nat, families: Families)
    ensures Distinct(Expansion(addrs, port, families))
    ensures forall x :: x in Expansion(addrs, port, families) <==>
      x.port == port && exists a :: a in addrs && Usable(a, families) && Unmap(a) == x.addr
    ensures var e := Expansion(addrs, port, families);
      forall i, j :: 0 <= i < j < |e| && e[j].addr.V4? ==> e[i].addr.V4?
  {
    var c := Canonical(addrs, families);
    CanonicalIs(addrs, families);
    OfFamilyIs(c, true, port);
    OfFamilyIs(c, false, port);
    var four, six := OfFamily(c, true, port), OfFamily(c, false, port);
    assert forall i :: 0 <= i < |four| ==> four[i] in four && four[i].addr.V4?;
    assert forall i :: 0 <= i < |six| ==> six[i] in six && !six[i].addr.V4?;
  }
}
