/** What the failover controller keeps over every run, and the course of an outage. */
module FailoverLaws {
  import opened Basics
  import opened Packets
  import opened Failover

  // ----- runs -----

  /** A lookup's answer reaches the controller only through orderAddrPorts, and never empty. */
  datatype Op =
    | Resolve(spec: int, answer: Option<seq<Address>>, port: nat, families: Families, now: int)
    | Evaluate(down: bool, now: int)

  function Publish(h: Hub, op: Op): Hub
    requires op.Resolve?
  {
    if op.answer.None? then h else
      var eps := Expansion(op.answer.value, op.port, op.families);
      if eps == [] then h else Update(h, op.spec, eps, op.now)
  }

  function Step(h: Hub, settle: int, op: Op): Hub {
    if op.Resolve? then Publish(h, op) else Check(h, settle, op.down, op.now).0
  }

  function Raised(h: Hub, settle: int, op: Op): bool {
    op.Evaluate? && Check(h, settle, op.down, op.now).1
  }

  function After(h: Hub, settle: int, ops: seq<Op>, k: nat): Hub
    requires k <= |ops|
  {
    if k == 0 then h else Step(After(h, settle, ops, k - 1), settle, ops[k - 1])
  }

  // ----- the invariant -----

  /** The active entry is listed at idx and the bond points at it; there is none exactly while nothing is listed. */
  ghost predicate Inv(h: Hub) {
    && DistinctSpecs(h.specs)
    && h.idx == Position(Flat(h.specs), h.active)
    && (h.active.spec == -1 <==> Flat(h.specs) == [])
    && (h.active.spec != -1 ==> h.active in Flat(h.specs) && h.remote == Some(h.active.addr))
  }

  lemma {:induction false} StartInv(specs: seq<Spec>, now: int)
    requires DistinctSpecs(specs)
    ensures Inv(Start(specs, now))
  {
    FlatEntries(specs);
  }

  lemma {:induction false} UpdateKeeps(h: Hub, spec: int, addrs: seq<AddrPort>, now: int)
    requires Inv(h) && addrs != [] && Distinct(addrs)
    ensures Inv(Update(h, spec, addrs, now))
  {
    hide Flat, Distinct;
    FlatEntries(h.specs);
    if 0 <= spec < |h.specs| {
      var specs := h.specs[spec := h.specs[spec].(addrs := addrs)];
      FlatEntries(specs);
      assert Entry(spec, addrs[0]) in Flat(specs);
      var list := Flat(specs);
      assert list[0] in list;
    }
  }

  lemma {:induction false} CheckKeeps(h: Hub, settle: int, down: bool, now: int)
    requires Inv(h)
    ensures Inv(Check(h, settle, down, now).0)
  {
    hide Flat, Distinct, DistinctSpecs;
    FlatEntries(h.specs);
    if Advances(h, settle, down, now) {
      FlatDistinct(h.specs);
      PositionOf(Flat(h.specs), Next(Flat(h.specs), h.active));
    }
  }

  /** Over every run of resolutions and checks the active identity, its place and the bond's remote agree. */
  lemma {:induction false} ActiveAlwaysListed(specs: seq<Spec>, start: int, settle: int, ops: seq<Op>, k: nat)
    requires DistinctSpecs(specs) && k <= |ops|
    ensures Inv(After(Start(specs, start), settle, ops, k))
  {
    if k == 0 {
      StartInv(specs, start);
    } else {
      ActiveAlwaysListed(specs, start, settle, ops, k - 1);
      var h, op := After(Start(specs, start), settle, ops, k - 1), ops[k - 1];
      if op.Evaluate? {
        CheckKeeps(h, settle, op.down, op.now);
      } else if op.answer.Some? {
        ExpansionIs(op.answer.value, op.port, op.families);
        if Expansion(op.answer.value, op.port, op.families) != [] {
          UpdateKeeps(h, op.spec, Expansion(op.answer.value, op.port, op.families), op.now);
        }
      }
    }
  }

  /**
   * Resolution repoints the bond exactly when it must: there was no endpoint, or the active endpoint left
   * its own spec. A change of another spec, or one the active address survives, moves nothing.
   */
  lemma {:induction false} RepointedIffGone(h: Hub, spec: int, addrs: seq<AddrPort>, now: int)
    requires Inv(h) && addrs != [] && Distinct(addrs) && 0 <= spec < |h.specs|
    ensures var r := Update(h, spec, addrs, now);
      && (r.active != h.active <==> h.active.spec == -1 || (spec == h.active.spec && h.active.addr !in addrs))
      && (r.active == h.active ==> r.remote == h.remote && r.lastSwitch == h.lastSwitch)
      && (r.active != h.active ==> r.lastSwitch == now && r.active.spec == spec && r.active.addr == addrs[0])
  {
    var specs := h.specs[spec := h.specs[spec].(addrs := addrs)];
    FlatEntries(specs);
    FlatEntries(h.specs);
    if h.active.spec == -1 { OnlySpec(h.specs, spec, addrs); }
  }

  /** The spec lists the new addresses and the others theirs; the course of an outage is not disturbed. */
  lemma {:induction false} ResolutionListed(h: Hub, spec: int, addrs: seq<AddrPort>, now: int)
    requires 0 <= spec < |h.specs|
    ensures var r := Update(h, spec, addrs, now);
      && |r.specs| == |h.specs| && r.specs[spec].addrs == addrs
      && (forall j :: 0 <= j < |h.specs| && j != spec ==> r.specs[j] == h.specs[j])
      && r.downAdvances == h.downAdvances && r.latched == h.latched && r.downSince == h.downSince
  {
    hide Flat, Position;
  }

  /** When nothing was listed, the list is the one expansion that arrives. */
  lemma {:induction false} OnlySpec(specs: seq<Spec>, spec: nat, addrs: seq<AddrPort>)
    requires spec < |specs| && Flat(specs) == []
    ensures Flat(specs[spec := specs[spec].(addrs := addrs)]) == Tag(spec, addrs)
  {
    var n, changed := |specs| - 1, specs[spec := specs[spec].(addrs := addrs)];
    if spec == n {
      assert changed[..n] == specs[..n];
    } else {
      assert changed[..n] == specs[..n][spec := specs[..n][spec].(addrs := addrs)];
      OnlySpec(specs[..n], spec, addrs);
    }
  }

  // ----- an outage -----

  /** An outage: every check finds every path down, and nothing else happens. */
  ghost predicate Outage(ops: seq<Op>) {
    forall i :: 0 <= i < |ops| ==> ops[i].Evaluate? && ops[i].down
  }

  /** The advances among the first k checks. */
  function Count(h: Hub, settle: int, ops: seq<Op>, k: nat): nat
    requires k <= |ops|
  {
    if k == 0 then 0 else
      Count(h, settle, ops, k - 1) +
      if ops[k - 1].Evaluate? && Advances(After(h, settle, ops, k - 1), settle, ops[k - 1].down, ops[k - 1].now)
      then 1 else 0
  }

  ghost predicate Fresh(h: Hub) {
    Inv(h) && |Flat(h.specs)| >= 2 && h.downAdvances == 0 && !h.latched
  }

  /** The place a advances on from a start, round a list of n. */
  function Round(start: nat, a: nat, n: nat): (place: nat)
    requires start < n
    ensures place < n
  {
    if a == 0 then start else
      var p := Round(start, a - 1, n);
      if p + 1 == n then 0 else p + 1
  }

  lemma {:induction false} WithinOneRound(start: nat, a: nat, n: nat)
    requires start < n && a <= n
    ensures Round(start, a, n) == if start + a < n then start + a else start + a - n
  {
    if a > 0 { WithinOneRound(start, a - 1, n); }
  }

  /** One of the n advances of a round reaches the place. */
  ghost predicate Visited(start: nat, n: nat, place: nat)
    requires start < n
  {
    exists a: nat :: 1 <= a <= n && Round(start, a, n) == place
  }

  /** The n advances of a round visit every endpoint exactly once, the first one last, and so does every later round. */
  lemma {:induction false} RoundVisitsAll(start: nat, n: nat)
    requires start < n
    ensures forall place :: 0 <= place < n ==> Visited(start, n, place)
    ensures forall a: nat, b: nat :: 1 <= a < b <= n ==> Round(start, a, n) != Round(start, b, n)
    ensures Round(start, n, n) == start
  {
    forall a: nat | a <= n ensures Round(start, a, n) == if start + a < n then start + a else start + a - n {
      WithinOneRound(start, a, n);
    }
    forall place | 0 <= place < n ensures Visited(start, n, place) {
      var a: nat := if place > start then place - start else n + place - start;
      assert Round(start, a, n) == place;
    }
  }

  lemma {:induction false} NextPlace(list: seq<Entry>, active: Entry)
    requires active in list
    ensures var p := Position(list, active); Next(list, active) == if p + 1 == |list| then 0 else p + 1
  {
    Modulo(Position(list, active) + 1, |list|);
  }

  lemma {:induction false} Modulo(x: nat, n: nat)
    requires 0 < x <= n
    ensures x % n == if x == n then 0 else x
  {
  }

  /** A check that advances moves one place on, and raises exhaustion when it completes the round. */
  lemma {:induction false} AdvanceMoves(h: Hub, settle: int, now: int)
    requires Inv(h) && Advances(h, settle, true, now)
    ensures var (g, raised) := Check(h, settle, true, now); var n := |Flat(h.specs)|;
      && Inv(g) && g.specs == h.specs && g.lastSwitch == now
      && 0 <= h.idx < n && g.idx == (if h.idx + 1 == n then 0 else h.idx + 1)
      && g.downAdvances == (if h.downAdvances + 1 >= n then 0 else h.downAdvances + 1)
      && g.latched == (h.latched || h.downAdvances + 1 >= n)
      && (raised <==> !h.latched && h.downAdvances + 1 >= n)
  {
    hide Inv, Flat, Next;
    CheckKeeps(h, settle, true, now);
    ActiveIndex(h);
    NextPlace(Flat(h.specs), h.active);
  }

  /** A check during an outage that does not advance changes nothing but the onset. */
  lemma {:induction false} WaitKeeps(h: Hub, settle: int, now: int)
    requires Inv(h) && |Flat(h.specs)| >= 2 && !Advances(h, settle, true, now)
    ensures var (g, raised) := Check(h, settle, true, now);
      && Inv(g) && g.specs == h.specs && g.idx == h.idx && g.lastSwitch == h.lastSwitch
      && g.downAdvances == h.downAdvances && g.latched == h.latched && !raised
  {
    hide Inv, Flat;
    CheckKeeps(h, settle, true, now);
  }

  lemma {:induction false} ActiveIndex(h: Hub)
    requires Inv(h) && Flat(h.specs) != []
    ensures h.active in Flat(h.specs) && 0 <= h.idx < |Flat(h.specs)| && h.idx == Position(Flat(h.specs), h.active)
  {
  }

  /**
   * The course of an outage with n >= 2 endpoints. After a advances the active endpoint is a places on,
   * round the list; the advances counted are those since the last full round; and the exhaustion latch is
   * set once a has reached n.
   */
  lemma {:induction false} OutageCourse(h: Hub, settle: int, ops: seq<Op>, k: nat)
    requires Fresh(h) && Outage(ops) && k <= |ops|
    ensures var g, n, a := After(h, settle, ops, k), |Flat(h.specs)|, Count(h, settle, ops, k);
      && Inv(g) && g.specs == h.specs && 0 <= h.idx < n && g.idx == Round(h.idx, a, n)
      && g.downAdvances == Round(0, a, n) && (g.latched <==> a >= n)
  {
    hide Inv, Flat, Check, Advances;
    FreshIs(h);
    if k > 0 {
      OutageCourse(h, settle, ops, k - 1);
      var g, a, now := After(h, settle, ops, k - 1), Count(h, settle, ops, k - 1), ops[k - 1].now;
      if Advances(g, settle, true, now) {
        AdvanceMoves(g, settle, now);
        if a < |Flat(h.specs)| { WithinOneRound(0, a, |Flat(h.specs)|); }
      } else {
        WaitKeeps(g, settle, now);
      }
    }
  }

  lemma {:induction false} FreshIs(h: Hub)
    requires Fresh(h)
    ensures Inv(h) && |Flat(h.specs)| >= 2 && 0 <= h.idx < |Flat(h.specs)|
  {
  }

  /** Advances are a settling time apart: a of them take a settling times from the last switch. */
  lemma {:induction false} AdvancesApart(h: Hub, settle: int, ops: seq<Op>, k: nat)
    requires Fresh(h) && Outage(ops) && k <= |ops|
    ensures After(h, settle, ops, k).lastSwitch >= h.lastSwitch + Count(h, settle, ops, k) * settle
  {
    hide Inv, Flat, Check;
    FreshIs(h);
    if k > 0 {
      AdvancesApart(h, settle, ops, k - 1);
      OutageCourse(h, settle, ops, k - 1);
      var g, a, now := After(h, settle, ops, k - 1), Count(h, settle, ops, k - 1), ops[k - 1].now;
      assert (a + 1) * settle == a * settle + settle;
      if Advances(g, settle, true, now) { AdvanceMoves(g, settle, now); } else { WaitKeeps(g, settle, now); }
    }
  }

  /** Exhaustion is raised on the n-th advance of an outage, and on no other check of it. */
  lemma {:induction false} RaisedOnTheNthAdvance(h: Hub, settle: int, ops: seq<Op>, k: nat)
    requires Fresh(h) && Outage(ops) && k < |ops|
    ensures var n := |Flat(h.specs)|;
      Raised(After(h, settle, ops, k), settle, ops[k]) <==>
        Count(h, settle, ops, k) == n - 1 && Count(h, settle, ops, k + 1) == n
  {
    hide Inv, Flat, Check, Advances;
    FreshIs(h);
    OutageCourse(h, settle, ops, k);
    var g, a, n := After(h, settle, ops, k), Count(h, settle, ops, k), |Flat(h.specs)|;
    if a < n { WithinOneRound(0, a, n); }
    if Advances(g, settle, true, ops[k].now) {
      AdvanceMoves(g, settle, ops[k].now);
    } else {
      WaitKeeps(g, settle, ops[k].now);
    }
  }

  /** The advances so far go up one at a time: each number of them is reached at some check. */
  lemma {:induction false} Reaches(h: Hub, settle: int, ops: seq<Op>, m: nat, a: nat) returns (k: nat)
    requires m <= |ops| && a <= Count(h, settle, ops, m)
    ensures k <= m && Count(h, settle, ops, k) == a
  {
    hide After, Advances;
    if Count(h, settle, ops, m) == a { return m; }
    k := Reaches(h, settle, ops, m - 1, a);
  }

  /** After k checks of an outage the active endpoint is the one that many advances round the list. */
  lemma {:induction false} ActiveAt(h: Hub, settle: int, ops: seq<Op>, k: nat)
    requires Fresh(h) && Outage(ops) && k <= |ops|
    ensures 0 <= h.idx < |Flat(h.specs)| && h.active == Flat(h.specs)[h.idx]
    ensures After(h, settle, ops, k).active == Flat(h.specs)[Round(h.idx, Count(h, settle, ops, k), |Flat(h.specs)|)]
  {
    hide Inv, Flat, Check, Advances;
    FreshIs(h);
    OutageCourse(h, settle, ops, k);
    ActiveIndex(h);
    ActiveIndex(After(h, settle, ops, k));
  }

  /**
   * The round of the controller. In an outage of n advances or more every listed endpoint is active at some
   * check within the first n advances; no endpoint is active after two different numbers of advances between
   * one and n; and at the n-th advance the active endpoint is the first one again.
   */
  lemma {:induction false} EveryEndpointTried(h: Hub, settle: int, ops: seq<Op>)
    requires Fresh(h) && Outage(ops) && Count(h, settle, ops, |ops|) >= |Flat(h.specs)|
    ensures forall e :: e in Flat(h.specs) ==> TriedWithin(h, settle, ops, e)
    ensures forall k :: 0 <= k <= |ops| && Count(h, settle, ops, k) == |Flat(h.specs)| ==>
      After(h, settle, ops, k).active == h.active
    ensures forall j, k ::
      0 <= j <= |ops| && 0 <= k <= |ops| && After(h, settle, ops, j).active == After(h, settle, ops, k).active ==>
      !(1 <= Count(h, settle, ops, j) < Count(h, settle, ops, k) <= |Flat(h.specs)|)
  {
    hide Inv, Flat, Check, Advances, After, Count, Round;
    FreshIs(h);
    var list, n := Flat(h.specs), |Flat(h.specs)|;
    RoundVisitsAll(h.idx, n);
    ListDistinct(h);
    forall k | 0 <= k <= |ops|
      ensures After(h, settle, ops, k).active == list[Round(h.idx, Count(h, settle, ops, k), n)]
    {
      ActiveAt(h, settle, ops, k);
    }
    ActiveAt(h, settle, ops, 0);
    forall e | e in list ensures TriedWithin(h, settle, ops, e) {
      var place :| 0 <= place < n && list[place] == e;
      assert Visited(h.idx, n, place);
      var a: nat :| 1 <= a <= n && Round(h.idx, a, n) == place;
      var k := Reaches(h, settle, ops, |ops|, a);
      ActiveAt(h, settle, ops, k);
    }
  }

  /** The endpoint is active after at least one and at most n advances. */
  ghost predicate TriedWithin(h: Hub, settle: int, ops: seq<Op>, e: Entry) {
    exists k :: 0 <= k <= |ops| && 1 <= Count(h, settle, ops, k) <= |Flat(h.specs)|
      && After(h, settle, ops, k).active == e
  }

  lemma {:induction false} ListDistinct(h: Hub)
    requires Inv(h)
    ensures Distinct(Flat(h.specs))
  {
    FlatDistinct(h.specs);
  }

  // ----- once per outage -----

  lemma {:induction false} LatchHolds(h: Hub, settle: int, ops: seq<Op>, i: nat, j: nat)
    requires i <= j <= |ops| && After(h, settle, ops, i).latched
    requires forall k :: i <= k < j ==> !(ops[k].Evaluate? && !ops[k].down)
    ensures After(h, settle, ops, j).latched
  {
    if i < j { LatchHolds(h, settle, ops, i, j - 1); }
  }

  /** Over any run, between two raised exhaustions some check found a path up again. */
  lemma {:induction false} OncePerOutage(h: Hub, settle: int, ops: seq<Op>, i: nat, j: nat)
    requires i < j < |ops|
    requires Raised(After(h, settle, ops, i), settle, ops[i]) && Raised(After(h, settle, ops, j), settle, ops[j])
    ensures exists k :: i < k < j && ops[k].Evaluate? && !ops[k].down
  {
    if forall k :: i < k < j ==> !(ops[k].Evaluate? && !ops[k].down) {
      assert After(h, settle, ops, i + 1).latched;
      LatchHolds(h, settle, ops, i + 1, j);
    }
  }

  /** A check moves off the active endpoint exactly in an outage, a settling time after the last switch, to another. */
  lemma {:induction false} SwitchesIff(h: Hub, settle: int, down: bool, now: int)
    requires Inv(h)
    ensures Check(h, settle, down, now).0.active != h.active <==>
      down && |Flat(h.specs)| >= 2 && now >= h.lastSwitch + settle
  {
    hide Inv, Flat, Next;
    if |Flat(h.specs)| >= 2 {
      CheckKeeps(h, settle, down, now);
      ActiveIndex(h);
      if Advances(h, settle, down, now) {
        AdvanceMoves(h, settle, now);
        ActiveIndex(Check(h, settle, down, now).0);
      }
    }
  }

  /**
   * A recovery arms the controller again, whatever went before: the active endpoint stays, and the next outage
   * raises exhaustion on its n-th advance and on no other check.
   */
  lemma {:induction false} RecoveryRearms(h: Hub, settle: int, now: int, ops: seq<Op>, k: nat)
    requires Inv(h) && |Flat(h.specs)| >= 2 && Outage(ops) && k < |ops|
    ensures var g, n := Check(h, settle, false, now).0, |Flat(h.specs)|;
      && g.active == h.active && g.specs == h.specs && g.lastSwitch == h.lastSwitch && g.remote == h.remote
      && (Raised(After(g, settle, ops, k), settle, ops[k]) <==>
            Count(g, settle, ops, k) == n - 1 && Count(g, settle, ops, k + 1) == n)
  {
    hide Flat, Next, After, Count, Raised;
    CheckKeeps(h, settle, false, now);
    RaisedOnTheNthAdvance(Check(h, settle, false, now).0, settle, ops, k);
  }

  /** A single endpoint is never moved off by a check; its exhaustion is a settling time of outage. */
  lemma {:induction false} SingleStays(h: Hub, settle: int, down: bool, now: int)
    requires Inv(h) && |Flat(h.specs)| == 1
    ensures var (g, raised) := Check(h, settle, down, now);
      && g.active == h.active && g.remote == h.remote && g.lastSwitch == h.lastSwitch
      && (raised <==> down && !h.latched && now - (if h.downSince.Some? then h.downSince.value else now) >= settle)
  {
    hide Inv, Flat, Next;
  }

  /** A single endpoint in an outage: its onset is the first check, and the latch says a settling time has passed. */
  lemma {:induction false} SingleCourse(h: Hub, settle: int, ops: seq<Op>, k: nat)
    requires Inv(h) && |Flat(h.specs)| == 1 && !h.latched && h.downSince.None? && Outage(ops) && k <= |ops|
    ensures var g := After(h, settle, ops, k);
      && g.specs == h.specs && g.active == h.active
      && (if k == 0 then g.downSince.None? else g.downSince == Some(ops[0].now))
      && (g.latched <==> exists j :: 0 <= j < k && ops[j].now - ops[0].now >= settle)
  {
    hide Inv, Flat, Next;
    if k > 0 { SingleCourse(h, settle, ops, k - 1); }
  }

  /** Its exhaustion is raised at the first check a settling time after the onset, and at no other. */
  lemma {:induction false} SingleRaisedOnce(h: Hub, settle: int, ops: seq<Op>, k: nat)
    requires Inv(h) && |Flat(h.specs)| == 1 && !h.latched && h.downSince.None? && Outage(ops) && k < |ops|
    ensures Raised(After(h, settle, ops, k), settle, ops[k]) <==>
      && ops[k].now - ops[0].now >= settle
      && forall j :: 0 <= j < k ==> ops[j].now - ops[0].now < settle
  {
    hide Inv, Flat, Next, After;
    SingleCourse(h, settle, ops, k);
  }

  /** The controller starts at the first endpoint of the list, or at none without a list. */
  lemma {:induction false} StartsFirst(specs: seq<Spec>, now: int)
    ensures var h := Start(specs, now);
      && h.specs == specs && h.lastSwitch == now && h.downAdvances == 0 && !h.latched && h.downSince.None?
      && (if Flat(specs) == [] then h.active.spec == -1 && h.remote.None?
          else h.active == Flat(specs)[0] && h.idx == 0 && h.remote == Some(Flat(specs)[0].addr))
  {
    FlatEntries(specs);
  }
}
