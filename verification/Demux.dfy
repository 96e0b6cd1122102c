/** The map from source address to peer of a shared socket, its cap and the peers' quotas. */
module Demux {
  import opened Packets

  type Source = nat

  datatype Binding = Binding(peer: nat, number: nat)

  /** sources is the published map; number is the last insertion number handed out. */
  datatype Table = Table(sources: map<Source, Binding>, number: nat)

  /** Peers are numbered below peers; a cap of zero means none. */
  datatype Limits = Limits(cap: nat, peers: nat) {
    ghost predicate Valid() { peers >= 1 }

    function Quota(): nat
      requires peers >= 1
    {
      if cap / peers < 1 then 1 else cap / peers
    }
  }

  function Of(t: Table, p: nat): set<Source> {
    set a | a in t.sources && t.sources[a].peer == p
  }

  /** The binding of p that was made first. */
  ghost predicate Oldest(t: Table, p: nat, a: Source) {
    a in Of(t, p) && forall b :: b in Of(t, p) ==> t.sources[a].number <= t.sources[b].number
  }

  /** The source in the set with the least insertion number. */
  ghost predicate Least(t: Table, seen: set<Source>, a: Source) {
    && a in seen && (forall b :: b in seen ==> b in t.sources)
    && forall b :: b in seen ==> t.sources[a].number <= t.sources[b].number
  }

  /** Insertion numbers are distinct and handed out in order. */
  ghost predicate Valid(t: Table) {
    && (forall a :: a in t.sources ==> t.sources[a].number <= t.number)
    && (forall a, b :: a in t.sources && b in t.sources && a != b ==> t.sources[a].number != t.sources[b].number)
  }

  /** The cap or the quota stands against a new address for p. */
  predicate AtQuota(t: Table, l: Limits, p: nat)
    requires l.peers >= 1
  {
    l.cap > 0 && |Of(t, p)| >= l.Quota()
  }

  predicate Refused(t: Table, l: Limits, a: Source, p: nat)
    requires l.peers >= 1
  {
    a !in t.sources && l.cap > 0 && !AtQuota(t, l, p) && |t.sources| >= l.cap
  }

  /** p's oldest binding makes room for the new address. */
  ghost predicate Evicts(t: Table, a: Source, p: nat, victim: Source, u: Table) {
    Oldest(t, p, victim) && u.sources == (t.sources - {victim})[a := Binding(p, u.number)]
  }

  /** One successful compare-and-swap of bindSourceToPeer, as a relation: u is the table after it. */
  ghost predicate Binds(t: Table, l: Limits, a: Source, p: nat, u: Table, ok: bool)
    requires l.peers >= 1
  {
    if a in t.sources && t.sources[a].peer == p then u == t && ok
    else if Refused(t, l, a, p) then u == t && !ok
    else
      && ok && u.number == t.number + 1
      && if a !in t.sources && AtQuota(t, l, p)
         then exists victim: Source :: Evicts(t, a, p, victim, u)
         else u.sources == t.sources[a := Binding(p, u.number)]
  }

  /** Of the bindings of p outside rest: how many there are, and the oldest. */
  ghost predicate Surveyed(t: Table, p: nat, rest: set<Source>, count: nat, oldest: Option<Source>) {
    && rest <= t.sources.Keys && count == |Of(t, p) - rest|
    && if count == 0 then oldest.None? else oldest.Some? && Least(t, Of(t, p) - rest, oldest.value)
  }

  lemma {:induction false} SurveyStep(
    t: Table, p: nat, rest: set<Source>, k: Source, count: nat, oldest: Option<Source>)
    requires Surveyed(t, p, rest, count, oldest) && k in rest
    ensures k in t.sources && (count > 0 ==> oldest.Some? && oldest.value in t.sources)
    ensures var b := t.sources[k];
      if b.peer != p then Surveyed(t, p, rest - {k}, count, oldest)
      else if count == 0 || b.number < t.sources[oldest.value].number
      then Surveyed(t, p, rest - {k}, count + 1, Some(k))
      else Surveyed(t, p, rest - {k}, count + 1, oldest)
  {
    var seen := Of(t, p) - rest;
    if t.sources[k].peer == p {
      assert Of(t, p) - (rest - {k}) == seen + {k};
    } else {
      assert Of(t, p) - (rest - {k}) == seen;
    }
  }

  lemma {:induction false} SurveyStarts(t: Table, p: nat)
    ensures Surveyed(t, p, t.sources.Keys, 0, None)
  {
    assert Of(t, p) - t.sources.Keys == {};
  }

  lemma {:induction false} SurveyEnds(t: Table, p: nat, count: nat, oldest: Option<Source>)
    requires Surveyed(t, p, {}, count, oldest)
    ensures count == |Of(t, p)| && if count == 0 then oldest.None? else oldest.Some? && Oldest(t, p, oldest.value)
  {
    assert Of(t, p) - {} == Of(t, p);
  }

  function Unbound(t: Table, p: nat): Table {
    t.(sources := map a | a in t.sources && t.sources[a].peer != p :: t.sources[a])
  }

  // ----- the code -----

  /** Counts p's bindings and finds the oldest, visiting the map in any order. */
  method Survey(t: Table, p: nat) returns (count: nat, oldest: Option<Source>)
    ensures count == |Of(t, p)|
    ensures if count == 0 then oldest.None? else oldest.Some? && Oldest(t, p, oldest.value)
  {
    hide Surveyed, Of, Oldest;
    var rest := t.sources.Keys;
    count, oldest := 0, None;
    SurveyStarts(t, p);
    while rest != {}
      invariant Surveyed(t, p, rest, count, oldest)
      decreases rest
    {
      var k :| k in rest;
      SurveyStep(t, p, rest, k, count, oldest);
      rest := rest - {k};
      var b := t.sources[k];
      if b.peer != p {
        continue;
      }
      if count == 0 || b.number < t.sources[oldest.value].number {
        oldest := Some(k);
      }
      count := count + 1;
    }
    SurveyEnds(t, p, count, oldest);
  }

  class DemuxTable {
    const limits: Limits
    var table: Table

    constructor (limits: Limits)
      ensures this.limits == limits && table == Table(map[], 0)
    {
      this.limits, table := limits, Table(map[], 0);
    }

    method Bind(a: Source, p: nat) returns (ok: bool)
      requires limits.peers >= 1
      modifies this
      ensures Binds(old(table), limits, a, p, table, ok)
    {
      var t := table;
      var present := a in t.sources;
      if present && t.sources[a].peer == p {
        return true;
      }
      var victim: Option<Source> := None;
      if !present && limits.cap > 0 {
        var count, oldest := Survey(t, p);
        if count >= limits.Quota() {
          victim := oldest;
        } else if |t.sources| >= limits.cap {
          return false;
        }
      }
      var next := t.sources;
      if victim.Some? {
        next := next - {victim.value};
      }
      table := Table(next[a := Binding(p, t.number + 1)], t.number + 1);
      assert victim.Some? ==> Evicts(t, a, p, victim.value, table);
      ok := true;
    }

    method Unbind(p: nat)
      modifies this
      ensures table == Unbound(old(table), p)
    {
      table := table.(sources := map a | a in table.sources && table.sources[a].peer != p :: table.sources[a]);
    }
  }

  // ----- steps and runs -----

  datatype Op = Bind(source: Source, peer: nat) | Unbind(peer: nat)

  ghost predicate Step(t: Table, l: Limits, op: Op, u: Table)
    requires l.peers >= 1
  {
    match op
    case Bind(a, p) => Binds(t, l, a, p, u, true) || Binds(t, l, a, p, u, false)
    case Unbind(p) => u == Unbound(t, p)
  }

  ghost predicate Capped(t: Table, l: Limits) {
    l.cap > 0 ==> |t.sources| <= l.cap
  }

  /** Binding for p removes no entry of another peer at another address, and re-points none. */
  lemma {:induction false} Isolation(t: Table, l: Limits, a: Source, p: nat, u: Table, ok: bool)
    requires l.Valid() && Binds(t, l, a, p, u, ok)
    ensures forall b :: b in t.sources && b != a && t.sources[b].peer != p ==>
      b in u.sources && u.sources[b] == t.sources[b]
    ensures forall b :: b in u.sources && b != a ==> b in t.sources && u.sources[b] == t.sources[b]
    ensures ok ==> a in u.sources && u.sources[a].peer == p
  {
  }

  lemma {:induction false} SizeAfter(m: map<Source, Binding>, a: Source, b: Binding)
    ensures |m[a := b]| == if a in m then |m| else |m| + 1
  {
    assert m[a := b].Keys == m.Keys + {a};
  }

  lemma {:induction false} SizeWithout(m: map<Source, Binding>, a: Source)
    requires a in m
    ensures |m - {a}| == |m| - 1
  {
    assert (m - {a}).Keys == m.Keys - {a};
  }

  lemma {:induction false} BindCapped(t: Table, l: Limits, a: Source, p: nat, u: Table, ok: bool)
    requires l.Valid() && Binds(t, l, a, p, u, ok) && Capped(t, l)
    ensures Capped(u, l)
  {
    if u != t {
      if a !in t.sources && AtQuota(t, l, p) {
        var victim: Source :| Evicts(t, a, p, victim, u);
        SizeWithout(t.sources, victim);
        SizeAfter(t.sources - {victim}, a, Binding(p, u.number));
      } else {
        SizeAfter(t.sources, a, Binding(p, u.number));
      }
    }
  }

  lemma {:induction false} StepCapped(t: Table, l: Limits, op: Op, u: Table)
    requires l.Valid() && Step(t, l, op, u) && Capped(t, l)
    ensures Capped(u, l)
  {
    if op.Bind? {
      if Binds(t, l, op.source, op.peer, u, true) { BindCapped(t, l, op.source, op.peer, u, true); }
      else { BindCapped(t, l, op.source, op.peer, u, false); }
    } else {
      assert u.sources.Keys <= t.sources.Keys;
      Subset(u.sources.Keys, t.sources.Keys);
    }
  }

  lemma {:induction false} Subset(a: set<Source>, b: set<Source>)
    requires a <= b
    ensures |a| <= |b|
  {
    assert b == a + (b - a);
  }

  ghost predicate Run(tables: seq<Table>, l: Limits, ops: seq<Op>)
    requires l.peers >= 1
  {
    && |tables| == |ops| + 1 && tables[0] == Table(map[], 0)
    && forall k :: 0 <= k < |ops| ==> Step(tables[k], l, ops[k], tables[k + 1])
  }

  /** In every interleaving of bind and unbind steps the map stays within the global cap. */
  lemma {:induction false} AlwaysCapped(tables: seq<Table>, l: Limits, ops: seq<Op>, k: nat)
    requires l.Valid() && Run(tables, l, ops) && k <= |ops|
    ensures Capped(tables[k], l)
  {
    if k > 0 {
      AlwaysCapped(tables, l, ops, k - 1);
      StepCapped(tables[k - 1], l, ops[k - 1], tables[k]);
    }
  }

  // ----- quotas -----

  /** Every binding belongs to one of the peers. */
  ghost predicate Known(t: Table, l: Limits) {
    forall a :: a in t.sources ==> t.sources[a].peer < l.peers
  }

  ghost predicate WithinQuota(t: Table, l: Limits)
    requires l.peers >= 1
  {
    l.cap > 0 ==> forall p :: 0 <= p < l.peers ==> |Of(t, p)| <= l.Quota()
  }

  /** The sources of the peers below n. */
  ghost function Held(t: Table, n: nat): set<Source> {
    set a | a in t.sources && t.sources[a].peer < n
  }

  lemma {:induction false} HeldBound(t: Table, n: nat, quota: nat, p: nat)
    requires forall q :: 0 <= q < n && q != p ==> |Of(t, q)| <= quota
    ensures |Held(t, n)| <= n * quota
      + (if p < n && |Of(t, p)| > quota then |Of(t, p)| - quota else 0)
      - (if p < n && |Of(t, p)| < quota then quota - |Of(t, p)| else 0)
  {
    if n == 0 {
      assert Held(t, 0) == {};
    } else {
      HeldBound(t, n - 1, quota, p);
      assert Held(t, n) == Held(t, n - 1) + Of(t, n - 1);
      assert n * quota == (n - 1) * quota + quota;
    }
  }

  /**
   * Where the cap allows every peer at least one source, a bind is refused only while some other peer
   * holds more than its quota.
   */
  lemma {:induction false} RefusedOnlyBehindExcess(t: Table, l: Limits, a: Source, p: nat)
    requires l.Valid() && Known(t, l) && p < l.peers <= l.cap && Refused(t, l, a, p)
    ensures exists q :: 0 <= q < l.peers && q != p && |Of(t, q)| > l.Quota()
  {
    if forall q :: 0 <= q < l.peers && q != p ==> |Of(t, q)| <= l.Quota() {
      HeldBound(t, l.peers, l.Quota(), p);
      assert Held(t, l.peers) == t.sources.Keys;
      QuotaFits(l);
    }
  }

  lemma {:induction false} QuotaFits(l: Limits)
    requires l.Valid() && l.peers <= l.cap
    ensures l.peers * l.Quota() <= l.cap && l.Quota() >= 1
  {
    assert l.cap == l.peers * (l.cap / l.peers) + l.cap % l.peers;
  }

  /** The step moves an address of another peer to one that is at its quota already. */
  predicate Oversteps(t: Table, l: Limits, op: Op)
    requires l.peers >= 1
  {
    op.Bind? && op.source in t.sources && t.sources[op.source].peer != op.peer && AtQuota(t, l, op.peer)
  }

  /** From within all quotas a step leaves them kept if and only if it does not overstep. */
  lemma {:induction false} QuotaKeptIff(t: Table, l: Limits, op: Op, u: Table)
    requires l.Valid() && Known(t, l) && WithinQuota(t, l) && Step(t, l, op, u) && op.peer < l.peers
    ensures Known(u, l)
    ensures WithinQuota(u, l) <==> !Oversteps(t, l, op)
  {
    KnownKept(t, l, op, u);
    if l.cap > 0 {
      if Oversteps(t, l, op) {
        Exceeds(t, l, op, u);
      } else {
        forall q | 0 <= q < l.peers ensures |Of(u, q)| <= l.Quota() { QuotaOf(t, l, op, u, q); }
      }
    }
  }

  lemma {:induction false} KnownKept(t: Table, l: Limits, op: Op, u: Table)
    requires l.Valid() && Known(t, l) && Step(t, l, op, u) && op.peer < l.peers
    ensures Known(u, l)
  {
    hide Oldest;
  }

  /** A peer at its quota that is given another peer's address exceeds it by one. */
  lemma {:induction false} Exceeds(t: Table, l: Limits, op: Op, u: Table)
    requires l.Valid() && Step(t, l, op, u) && Oversteps(t, l, op)
    ensures |Of(u, op.peer)| == |Of(t, op.peer)| + 1 > l.Quota()
  {
    hide Limits.Quota;
    var a, p, n := op.source, op.peer, u.number;
    SameOf(t, n, p);
    OfInsert(t.sources, a, Binding(p, n), n, p);
    assert u == Table(t.sources[a := Binding(p, n)], n);
    assert a !in Of(t, p);
  }

  lemma {:induction false} OfInsert(m: map<Source, Binding>, a: Source, b: Binding, number: nat, q: nat)
    ensures Of(Table(m[a := b], number), q) ==
      if q == b.peer then Of(Table(m, number), q) + {a} else Of(Table(m, number), q) - {a}
  {
  }

  lemma {:induction false} OfWithout(m: map<Source, Binding>, a: Source, number: nat, q: nat)
    ensures Of(Table(m - {a}, number), q) == Of(Table(m, number), q) - {a}
  {
  }

  lemma {:induction false} QuotaOf(t: Table, l: Limits, op: Op, u: Table, q: nat)
    requires l.Valid() && Step(t, l, op, u) && !Oversteps(t, l, op) && l.cap > 0 && |Of(t, q)| <= l.Quota()
    ensures |Of(u, q)| <= l.Quota()
  {
    hide Oldest, Of, Limits.Quota;
    if op.Unbind? {
      UnboundOf(t, op.peer, q);
    } else if u != t {
      var a, p, n := op.source, op.peer, u.number;
      SameOf(t, n, q);
      assert u == Table(u.sources, n);
      if a !in t.sources && AtQuota(t, l, p) {
        var victim: Source :| Evicts(t, a, p, victim, u);
        OldestIsHeld(t, p, victim);
        OfWithout(t.sources, victim, n, q);
        OfInsert(t.sources - {victim}, a, Binding(p, n), n, q);
      } else {
        OfInsert(t.sources, a, Binding(p, n), n, q);
      }
    }
  }

  lemma {:induction false} SameOf(t: Table, number: nat, q: nat)
    ensures Of(Table(t.sources, number), q) == Of(t, q)
  {
  }

  lemma {:induction false} UnboundOf(t: Table, p: nat, q: nat)
    ensures |Of(Unbound(t, p), q)| <= |Of(t, q)|
  {
    Subset(Of(Unbound(t, p), q), Of(t, q));
  }

  lemma {:induction false} OldestIsHeld(t: Table, p: nat, a: Source)
    requires Oldest(t, p, a)
    ensures a in Of(t, p)
  {
  }

  /** Every operation is one of a peer that is configured. */
  ghost predicate ByPeers(ops: seq<Op>, l: Limits) {
    forall k :: 0 <= k < |ops| ==> ops[k].peer < l.peers
  }

  ghost predicate NoneOversteps(tables: seq<Table>, l: Limits, ops: seq<Op>, n: nat)
    requires l.peers >= 1 && n <= |ops| && |tables| == |ops| + 1
  {
    forall k :: 0 <= k < n ==> !Oversteps(tables[k], l, ops[k])
  }

  lemma {:induction false} AlwaysKnown(tables: seq<Table>, l: Limits, ops: seq<Op>, k: nat)
    requires l.Valid() && Run(tables, l, ops) && ByPeers(ops, l) && k <= |ops|
    ensures Known(tables[k], l)
  {
    if k > 0 {
      AlwaysKnown(tables, l, ops, k - 1);
      KnownKept(tables[k - 1], l, ops[k - 1], tables[k]);
    }
  }

  /**
   * Over every run, all peers were within their quotas in every state so far if and only if no step so far
   * gave another peer's address to a peer at its quota.
   */
  lemma {:induction false} WithinQuotaIff(tables: seq<Table>, l: Limits, ops: seq<Op>, n: nat)
    requires l.Valid() && Run(tables, l, ops) && ByPeers(ops, l) && n <= |ops|
    ensures (forall k :: 0 <= k <= n ==> WithinQuota(tables[k], l)) <==> NoneOversteps(tables, l, ops, n)
  {
    if n == 0 {
      forall q | 0 <= q < l.peers ensures |Of(tables[0], q)| == 0 { assert Of(tables[0], q) == {}; }
    } else {
      WithinQuotaIff(tables, l, ops, n - 1);
      AlwaysKnown(tables, l, ops, n - 1);
      assert Step(tables[n - 1], l, ops[n - 1], tables[n]);
      if WithinQuota(tables[n - 1], l) { QuotaKeptIff(tables[n - 1], l, ops[n - 1], tables[n]); }
      assert NoneOversteps(tables, l, ops, n) <==>
        NoneOversteps(tables, l, ops, n - 1) && !Oversteps(tables[n - 1], l, ops[n - 1]);
    }
  }

  /** With a cap of at least the number of peers, no bind is refused as long as no step has overstepped. */
  lemma {:induction false} NeverRefused(tables: seq<Table>, l: Limits, ops: seq<Op>, k: nat)
    requires l.Valid() && Run(tables, l, ops) && ByPeers(ops, l) && k < |ops| && ops[k].Bind? && l.cap >= l.peers
    requires NoneOversteps(tables, l, ops, k)
    ensures WithinQuota(tables[k], l) && !Refused(tables[k], l, ops[k].source, ops[k].peer)
  {
    WithinQuotaIff(tables, l, ops, k);
    AlwaysKnown(tables, l, ops, k);
    assert WithinQuota(tables[k], l);
    if Refused(tables[k], l, ops[k].source, ops[k].peer) {
      RefusedOnlyBehindExcess(tables[k], l, ops[k].source, ops[k].peer);
    }
  }

  /** The tables of a run in which peer 0 takes over the address of peer 1. */
  ghost function Takeover(): seq<Table> {
    [Table(map[], 0), Table(map[1 := Binding(0, 1)], 1), Table(map[1 := Binding(0, 1), 2 := Binding(1, 2)], 2),
     Table(map[1 := Binding(0, 1), 2 := Binding(0, 3)], 3)]
  }

  /** Re-pointing can take a peer beyond its quota, and then another below its own is refused. */
  lemma {:induction false} RepointingCanRefuse()
    ensures var l := Limits(2, 2);
      && Run(Takeover(), l, [Bind(1, 0), Bind(2, 1), Bind(2, 0)])
      && l.cap >= l.peers && |Of(Takeover()[3], 0)| > l.Quota() && Refused(Takeover()[3], l, 3, 1)
  {
    hide Evicts, Oldest;
    var l, r := Limits(2, 2), Takeover();
    assert Of(r[0], 0) == {} && Of(r[1], 1) == {} && Of(r[3], 1) == {} && Of(r[3], 0) == {1, 2};
    assert r[1].sources.Keys == {1} && r[3].sources.Keys == {1, 2};
    assert Binds(r[0], l, 1, 0, r[1], true);
    assert Binds(r[1], l, 2, 1, r[2], true);
    assert Binds(r[2], l, 2, 0, r[3], true);
  }

  // ----- eviction order -----

  lemma {:induction false} StepValid(t: Table, l: Limits, op: Op, u: Table)
    requires l.Valid() && Step(t, l, op, u) && Valid(t)
    ensures Valid(u)
  {
    if op.Bind? && u != t && op.source !in t.sources && AtQuota(t, l, op.peer) {
      var victim: Source :| Evicts(t, op.source, op.peer, victim, u);
    }
  }

  /**
   * What a bind changes, exactly. It succeeds unless the address is new, there is a cap, it is reached, and the peer
   * is below its quota; then the address is the peer's; and the one entry that goes is the peer's oldest, when the
   * address is new and the peer at its quota.
   */
  lemma {:induction false} BindIs(t: Table, l: Limits, a: Source, p: nat, u: Table, ok: bool)
    requires l.Valid() && Valid(t) && Binds(t, l, a, p, u, ok)
    ensures ok <==> a in t.sources || l.cap == 0 || |Of(t, p)| >= l.Quota() || |t.sources| < l.cap
    ensures if ok then a in u.sources && u.sources[a].peer == p else u == t
    ensures forall b :: b in t.sources && b != a ==>
      if a !in t.sources && l.cap > 0 && |Of(t, p)| >= l.Quota() && Oldest(t, p, b) then b !in u.sources
      else b in u.sources && u.sources[b] == t.sources[b]
    ensures forall b :: b in u.sources ==> b == a || b in t.sources
    ensures a in t.sources && t.sources[a].peer != p ==> forall b :: b in t.sources ==>
      b in u.sources && (b != a ==> u.sources[b].number < u.sources[a].number)
  {
    if u != t && a !in t.sources && AtQuota(t, l, p) {
      var victim: Source :| Evicts(t, a, p, victim, u);
      assert forall b :: Oldest(t, p, b) ==> b == victim;
    }
  }

  /** An unbind takes out exactly the entries of the peer. */
  lemma {:induction false} UnbindIs(t: Table, p: nat, b: Source)
    ensures var u := Unbound(t, p);
      && u.number == t.number && (b in u.sources <==> b in t.sources && t.sources[b].peer != p)
      && (b in u.sources ==> u.sources[b] == t.sources[b])
  {
  }

  /** Eviction is first bound, first evicted: insertion numbers are distinct, so a bind has one outcome. */
  lemma {:induction false} BindDeterministic(
    t: Table, l: Limits, a: Source, p: nat, u: Table, v: Table, ok: bool, also: bool)
    requires l.Valid() && Valid(t) && Binds(t, l, a, p, u, ok) && Binds(t, l, a, p, v, also)
    ensures u == v && ok == also
  {
    if u != t && a !in t.sources && AtQuota(t, l, p) {
      var x: Source :| Evicts(t, a, p, x, u);
      var y: Source :| Evicts(t, a, p, y, v);
      assert x == y;
    }
  }
}
