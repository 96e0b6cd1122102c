/** Exhaustion when the endpoint list changes during an outage. */
module ExhaustionLaws {
  import opened Basics
  import opened Packets
  import opened Failover
  import opened FailoverLaws

  /** An outage in which lookups may still be answered: no check finds a path up. */
  ghost predicate Dark(ops: seq<Op>) {
    forall i :: 0 <= i < |ops| ==> ops[i].Resolve? || ops[i].down
  }

  lemma {:induction false} StepInv(h: Hub, settle: int, op: Op)
    requires Inv(h)
    ensures Inv(Step(h, settle, op))
  {
    hide Inv, Check, Update, Expansion;
    if op.Evaluate? {
      CheckKeeps(h, settle, op.down, op.now);
    } else if op.answer.Some? {
      ExpansionIs(op.answer.value, op.port, op.families);
      if Expansion(op.answer.value, op.port, op.families) != [] {
        UpdateKeeps(h, op.spec, Expansion(op.answer.value, op.port, op.families), op.now);
      }
    }
  }

  lemma {:induction false} AfterInv(h: Hub, settle: int, ops: seq<Op>, k: nat)
    requires Inv(h) && k <= |ops|
    ensures Inv(After(h, settle, ops, k))
  {
    hide Inv, Step;
    if k > 0 {
      AfterInv(h, settle, ops, k - 1);
      StepInv(After(h, settle, ops, k - 1), settle, ops[k - 1]);
    }
  }

  /**
   * Lookups do not reset the count: until exhaustion is raised, the controller counts all advances of the
   * outage, whichever list they were made on.
   */
  lemma {:induction false} CountCarried(h: Hub, settle: int, ops: seq<Op>, k: nat)
    requires h.downAdvances == 0 && Dark(ops) && k <= |ops| && !After(h, settle, ops, k).latched
    ensures After(h, settle, ops, k).downAdvances == Count(h, settle, ops, k)
    ensures forall i :: 0 <= i <= k ==> !After(h, settle, ops, i).latched
  {
    hide Flat, Next, Position, Expansion;
    if k > 0 { CountCarried(h, settle, ops, k - 1); }
  }

  lemma {:induction false} Shifted(h: Hub, settle: int, ops: seq<Op>, j: nat, i: nat)
    requires j + i <= |ops|
    ensures After(h, settle, ops, j + i) == After(After(h, settle, ops, j), settle, ops[j..], i)
    ensures Count(h, settle, ops, j + i)
         == Count(h, settle, ops, j) + Count(After(h, settle, ops, j), settle, ops[j..], i)
  {
    hide Step, Advances;
    if i > 0 {
      Shifted(h, settle, ops, j, i - 1);
      assert ops[j + i - 1] == ops[j..][i - 1];
    }
  }

  // ----- a fixed list, entered with advances already counted -----

  ghost predicate Entered(h: Hub) {
    Inv(h) && |Flat(h.specs)| >= 2 && !h.latched
  }

  /** The advances that exhaust a list of n when c are counted already. */
  function Due(c: nat, n: nat): (a: nat)
    ensures a >= 1
  {
    if c + 1 >= n then 1 else n - c
  }

  lemma {:induction false} EnteredCourse(h: Hub, settle: int, ops: seq<Op>, k: nat)
    requires Entered(h) && Outage(ops) && k <= |ops|
    ensures var g, n, a := After(h, settle, ops, k), |Flat(h.specs)|, Count(h, settle, ops, k);
      && Inv(g) && g.specs == h.specs && 0 <= h.idx < n && g.idx == Round(h.idx, a, n)
      && (g.latched <==> a >= Due(h.downAdvances, n))
      && (!g.latched ==> g.downAdvances == h.downAdvances + a)
  {
    hide Inv, Flat, Check, Advances;
    EnteredIs(h);
    if k > 0 {
      EnteredCourse(h, settle, ops, k - 1);
      var g, now := After(h, settle, ops, k - 1), ops[k - 1].now;
      if Advances(g, settle, true, now) { AdvanceMoves(g, settle, now); } else { WaitKeeps(g, settle, now); }
    }
  }

  lemma {:induction false} EnteredIs(h: Hub)
    requires Entered(h)
    ensures Inv(h) && |Flat(h.specs)| >= 2 && !h.latched && 0 <= h.idx < |Flat(h.specs)|
  {
  }

  /** Exhaustion is raised on the advance that is due, and on no other check. */
  lemma {:induction false} RaisedWhenDue(h: Hub, settle: int, ops: seq<Op>, k: nat)
    requires Entered(h) && Outage(ops) && k < |ops|
    ensures Raised(After(h, settle, ops, k), settle, ops[k]) <==>
      Count(h, settle, ops, k) + 1 == Count(h, settle, ops, k + 1) == Due(h.downAdvances, |Flat(h.specs)|)
  {
    hide Inv, Flat, Check, Advances;
    EnteredIs(h);
    EnteredCourse(h, settle, ops, k);
    var g, now := After(h, settle, ops, k), ops[k].now;
    if Advances(g, settle, true, now) { AdvanceMoves(g, settle, now); } else { WaitKeeps(g, settle, now); }
  }

  /** The endpoint was active after some of the first m operations. */
  ghost predicate Tried(h: Hub, settle: int, ops: seq<Op>, m: nat, e: Entry)
    requires m <= |ops|
  {
    exists i :: 0 <= i <= m && After(h, settle, ops, i).active == e
  }

  lemma {:induction false} PlaceAt(h: Hub, settle: int, ops: seq<Op>, k: nat)
    requires Entered(h) && Outage(ops) && k <= |ops|
    ensures 0 <= h.idx < |Flat(h.specs)|
    ensures After(h, settle, ops, k).active == Flat(h.specs)[Round(h.idx, Count(h, settle, ops, k), |Flat(h.specs)|)]
  {
    hide Inv, Flat, Check, Advances;
    EnteredIs(h);
    EnteredCourse(h, settle, ops, k);
    ActiveIndex(After(h, settle, ops, k));
  }

  /** After a advances round a list of n, exactly the places up to a on from the start were active. */
  lemma {:induction false} TriedIff(h: Hub, settle: int, ops: seq<Op>, m: nat, d: nat)
    requires Entered(h) && Outage(ops) && m <= |ops| && d < |Flat(h.specs)|
    requires Count(h, settle, ops, m) < |Flat(h.specs)|
    ensures 0 <= h.idx < |Flat(h.specs)|
    ensures Tried(h, settle, ops, m, Flat(h.specs)[Round(h.idx, d, |Flat(h.specs)|)]) <==> d <= Count(h, settle, ops, m)
  {
    hide Inv, Flat, After, Count, Round, Advances;
    var list, n := Flat(h.specs), |Flat(h.specs)|;
    EnteredIs(h);
    ListDistinct(h);
    forall i | 0 <= i <= m
      ensures After(h, settle, ops, i).active == list[Round(h.idx, Count(h, settle, ops, i), n)]
      ensures Count(h, settle, ops, i) <= Count(h, settle, ops, m)
      ensures Round(h.idx, d, n) == Round(h.idx, Count(h, settle, ops, i), n) ==> d == Count(h, settle, ops, i)
    {
      PlaceAt(h, settle, ops, i);
      CountGrows(h, settle, ops, i, m);
      WithinOneRound(h.idx, d, n);
      WithinOneRound(h.idx, Count(h, settle, ops, i), n);
    }
    if d <= Count(h, settle, ops, m) {
      var i := Reaches(h, settle, ops, m, d);
      assert After(h, settle, ops, i).active == list[Round(h.idx, d, n)];
    }
  }

  lemma {:induction false} CountGrows(h: Hub, settle: int, ops: seq<Op>, i: nat, m: nat)
    requires i <= m <= |ops|
    ensures Count(h, settle, ops, i) <= Count(h, settle, ops, m)
  {
    hide After, Advances;
    if i < m { CountGrows(h, settle, ops, i, m - 1); }
  }

  /** Of a list entered with c advances counted, the raise has seen every endpoint exactly if c <= 1 or n == 2. */
  lemma {:induction false} EnteredJustified(h: Hub, settle: int, ops: seq<Op>, k: nat)
    requires Entered(h) && Outage(ops) && k < |ops| && Raised(After(h, settle, ops, k), settle, ops[k])
    ensures (forall e :: e in Flat(h.specs) ==> Tried(h, settle, ops, k + 1, e)) <==>
      h.downAdvances <= 1 || |Flat(h.specs)| == 2
  {
    hide Inv, Flat, After, Count, Round, Check, Tried;
    var list, n, a := Flat(h.specs), |Flat(h.specs)|, Count(h, settle, ops, k + 1);
    EnteredIs(h);
    RaisedWhenDue(h, settle, ops, k);
    if h.downAdvances <= 1 || n == 2 {
      forall e | e in list ensures Tried(h, settle, ops, k + 1, e) {
        var place :| 0 <= place < n && list[place] == e;
        var d: nat := if place >= h.idx then place - h.idx else n + place - h.idx;
        WithinOneRound(h.idx, d, n);
        var m: nat := k + 1;
        if a >= n { m := Reaches(h, settle, ops, k + 1, n - 1); }
        TriedIff(h, settle, ops, m, d);
        TriedLater(h, settle, ops, m, k + 1, e);
      }
    } else {
      TriedIff(h, settle, ops, k + 1, a + 1);
      assert list[Round(h.idx, a + 1, n)] in list;
    }
  }

  lemma {:induction false} TriedLater(h: Hub, settle: int, ops: seq<Op>, m: nat, k: nat, e: Entry)
    requires m <= k <= |ops| && Tried(h, settle, ops, m, e)
    ensures Tried(h, settle, ops, k, e)
  {
    hide After;
  }

  // ----- any outage -----

  /** The endpoint was active in some state of the run from j to m. */
  ghost predicate TriedSince(h: Hub, settle: int, ops: seq<Op>, j: nat, m: nat, e: Entry)
    requires m <= |ops|
  {
    exists i :: j <= i <= m && After(h, settle, ops, i).active == e
  }

  /** Nothing but checks from j to k: the list is the one of state j. */
  ghost predicate ListSettled(ops: seq<Op>, j: nat, k: nat) {
    j <= k < |ops| && forall i :: j <= i <= k ==> ops[i].Evaluate?
  }

  /**
   * When exhaustion may be believed. Take any outage, with lookups answered in it, and a list of n >= 2 that
   * stands from state j until exhaustion is raised by check k. Every endpoint of that list was tried on it if
   * and only if at most one advance of the outage was made before state j, or n is 2. So with lists that
   * change after two or more advances a raise may come early; with a list that stands throughout it never does.
   */
  lemma {:induction false} ExhaustionJustifiedIff(h: Hub, settle: int, ops: seq<Op>, j: nat, k: nat)
    requires Inv(h) && h.downAdvances == 0 && Dark(ops) && ListSettled(ops, j, k)
    requires |Flat(After(h, settle, ops, j).specs)| >= 2 && Raised(After(h, settle, ops, k), settle, ops[k])
    ensures var list := Flat(After(h, settle, ops, j).specs);
      && After(h, settle, ops, k).specs == After(h, settle, ops, j).specs
      && Count(h, settle, ops, k + 1) - Count(h, settle, ops, j) == Due(Count(h, settle, ops, j), |list|)
      && ((forall e :: e in list ==> TriedSince(h, settle, ops, j, k + 1, e)) <==>
            Count(h, settle, ops, j) <= 1 || |list| == 2)
  {
    hide Inv, Flat, After, Count, Check;
    var g, tail := After(h, settle, ops, j), ops[j..k + 1];
    NotYetRaised(h, settle, ops, j, k);
    AfterInv(h, settle, ops, j);
    forall i: nat | i <= k + 1 - j
      ensures After(h, settle, ops, j + i) == After(g, settle, tail, i)
      ensures Count(h, settle, ops, j + i) == Count(h, settle, ops, j) + Count(g, settle, tail, i)
    {
      Shifted(h, settle, ops, j, i);
      SamePrefix(g, settle, ops[j..], tail, i);
    }
    assert tail[k - j] == ops[k] && Entered(g);
    EnteredCourse(g, settle, tail, k - j);
    RaisedWhenDue(g, settle, tail, k - j);
    EnteredJustified(g, settle, tail, k - j);
    var m, n := k + 1, k + 1 - j;
    forall e ensures TriedSince(h, settle, ops, j, m, e) <==> Tried(g, settle, tail, n, e) {
      if TriedSince(h, settle, ops, j, m, e) {
        var i :| j <= i <= m && After(h, settle, ops, i).active == e;
        assert After(g, settle, tail, i - j).active == e;
      }
      if Tried(g, settle, tail, n, e) {
        var i :| 0 <= i <= n && After(g, settle, tail, i).active == e;
        assert After(h, settle, ops, j + i).active == e;
      }
    }
  }

  lemma {:induction false} SamePrefix(h: Hub, settle: int, ops: seq<Op>, shorter: seq<Op>, i: nat)
    requires shorter <= ops && i <= |shorter|
    ensures After(h, settle, ops, i) == After(h, settle, shorter, i)
    ensures Count(h, settle, ops, i) == Count(h, settle, shorter, i)
  {
    hide Step, Advances;
    if i > 0 { SamePrefix(h, settle, ops, shorter, i - 1); }
  }

  lemma {:induction false} NotYetRaised(h: Hub, settle: int, ops: seq<Op>, j: nat, k: nat)
    requires h.downAdvances == 0 && Dark(ops) && j <= k < |ops| && Raised(After(h, settle, ops, k), settle, ops[k])
    ensures var g := After(h, settle, ops, j); !g.latched && g.downAdvances == Count(h, settle, ops, j)
  {
    hide After, Count, Flat, Next;
    CountCarried(h, settle, ops, k);
    CountCarried(h, settle, ops, j);
  }

  // ----- a raise that comes early -----

  function Port(bits: nat): AddrPort {
    AddrPort(V4(bits), 1)
  }

  /** Two advances on a list of three, then a lookup that replaces it, then one more advance. */
  const OLD_LIST := [Port(1), Port(2), Port(3)]
  const NEW_LIST := [Port(4), Port(5), Port(6)]
  const EARLY: seq<Op> := [
    Evaluate(true, 1), Evaluate(true, 2),
    Resolve(0, Some([V4(4), V4(5), V4(6)]), 1, Families(true, true), 2), Evaluate(true, 3)]

  function Controller(addrs: seq<AddrPort>, idx: nat, time: int, advances: nat): Hub
    requires idx < |addrs|
  {
    Hub([Spec(true, addrs)], Entry(0, addrs[idx]), idx, time, false, advances, Some(1), Some(addrs[idx]))
  }

  lemma {:induction false} OneSpec(addrs: seq<AddrPort>)
    ensures Flat([Spec(true, addrs)]) == Tag(0, addrs)
  {
    var specs := [Spec(true, addrs)];
    assert specs[..0] == [] && Flat(specs[..0]) == [];
  }

  lemma {:induction false} NewExpansion()
    ensures Expansion([V4(4), V4(5), V4(6)], 1, Families(true, true)) == NEW_LIST
  {
    var both, all, two, one := Families(true, true), [V4(4), V4(5), V4(6)], [V4(4), V4(5)], [V4(4)];
    assert all[..2] == two && two[..1] == one && one[..0] == [];
    assert Canonical(one, both) == one && Canonical(two, both) == two && Canonical(all, both) == all;
    assert OfFamily(one, true, 1) == [Port(4)] && OfFamily(two, true, 1) == [Port(4), Port(5)];
    assert OfFamily(all, true, 1) == NEW_LIST;
    assert OfFamily(one, false, 1) == [] && OfFamily(two, false, 1) == [] && OfFamily(all, false, 1) == [];
  }

  lemma {:induction false} PlaceIn(addrs: seq<AddrPort>, k: nat)
    requires Distinct(addrs) && k < |addrs|
    ensures Position(Tag(0, addrs), Entry(0, addrs[k])) == k
  {
    PositionOf(Tag(0, addrs), k);
  }

  /** A check a settling time after the last switch, on a list of three. */
  lemma {:induction false} OneAdvance(h: Hub, addrs: seq<AddrPort>, idx: nat, time: int, advances: nat)
    requires |addrs| == 3 && Distinct(addrs) && idx < 2
    requires h == Controller(addrs, idx, time, advances)
      || (time == 0 && h == Controller(addrs, idx, time, advances).(downSince := None))
    ensures var (g, raised) := Check(h, 1, true, time + 1);
      && (raised <==> advances + 1 >= 3) && g.active == Entry(0, addrs[idx + 1])
      && (!raised ==> g == Controller(addrs, idx + 1, time + 1, advances + 1))
  {
    hide Flat, Distinct, Position;
    OneSpec(addrs);
    PlaceIn(addrs, idx);
  }

  lemma {:induction false} Replaced()
    ensures Publish(Controller(OLD_LIST, 2, 2, 2), EARLY[2]) == Controller(NEW_LIST, 0, 2, 2)
  {
    hide Flat, Position, Expansion;
    NewExpansion();
    OneSpec(NEW_LIST);
    PlaceIn(NEW_LIST, 0);
    assert [Spec(true, OLD_LIST)][0 := Spec(true, NEW_LIST)] == [Spec(true, NEW_LIST)];
  }

  const FRESH: Hub := Start([Spec(true, OLD_LIST)], 0)

  lemma {:induction false} FreshController()
    ensures FRESH == Controller(OLD_LIST, 0, 0, 0).(downSince := None) && Inv(FRESH)
  {
    hide Flat, Inv, Position;
    assert DistinctSpecs([Spec(true, OLD_LIST)]);
    OneSpec(OLD_LIST);
    PlaceIn(OLD_LIST, 0);
    StartInv([Spec(true, OLD_LIST)], 0);
  }

  lemma {:induction false} EarlyStates()
    ensures After(FRESH, 1, EARLY, 1) == Controller(OLD_LIST, 1, 1, 1)
    ensures After(FRESH, 1, EARLY, 2) == Controller(OLD_LIST, 2, 2, 2)
    ensures After(FRESH, 1, EARLY, 3) == Controller(NEW_LIST, 0, 2, 2)
  {
    hide Check, Publish, Start, Controller;
    FreshController();
    OneAdvance(FRESH, OLD_LIST, 0, 0, 0);
    OneAdvance(Controller(OLD_LIST, 1, 1, 1), OLD_LIST, 1, 1, 1);
    Replaced();
    assert After(FRESH, 1, EARLY, 0) == FRESH;
    assert After(FRESH, 1, EARLY, 1) == Step(FRESH, 1, EARLY[0]);
    assert After(FRESH, 1, EARLY, 2) == Step(After(FRESH, 1, EARLY, 1), 1, EARLY[1]);
  }

  /** Exhaustion is raised in this run by an advance to the second of three endpoints; the third was never active. */
  lemma {:induction false} RaisedBeforeAllTried()
    ensures Inv(FRESH) && Dark(EARLY) && Raised(After(FRESH, 1, EARLY, 3), 1, EARLY[3])
    ensures Entry(0, Port(6)) in Flat(After(FRESH, 1, EARLY, 3).specs)
    ensures forall i :: 0 <= i <= 4 ==> After(FRESH, 1, EARLY, i).active != Entry(0, Port(6))
  {
    hide Flat, Start, Check, Inv, Publish;
    FreshController();
    EarlyStates();
    OneSpec(NEW_LIST);
    OneAdvance(Controller(NEW_LIST, 0, 2, 2), NEW_LIST, 0, 2, 2);
    assert Tag(0, NEW_LIST)[2] == Entry(0, Port(6));
    assert After(FRESH, 1, EARLY, 4) == Check(Controller(NEW_LIST, 0, 2, 2), 1, true, 3).0;
    forall i | 0 <= i <= 4 ensures After(FRESH, 1, EARLY, i).active != Entry(0, Port(6)) {
      if i == 0 {
        assert After(FRESH, 1, EARLY, i) == FRESH;
      } else if i < 4 {
        assert i == 1 || i == 2 || i == 3;
      }
    }
  }
}
