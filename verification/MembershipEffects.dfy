/** What each membership operation changes, exactly, and how long a path stays in or out. */
module MembershipEffects {
  import opened Basics
  import opened Membership

  /** The views of other names, in order. */
  function Others(views: seq<View>, name: string): seq<View> {
    if views == [] then [] else
      Others(views[..|views| - 1], name) + if views[|views| - 1].name != name then [views[|views| - 1]] else []
  }

  lemma {:induction false} OthersAre(views: seq<View>, name: string)
    ensures forall v :: v in Others(views, name) <==> v in views && v.name != name
  {
    if views != [] {
      OthersAre(views[..|views| - 1], name);
      assert views == views[..|views| - 1] + [views[|views| - 1]];
    }
  }

  lemma {:induction false} NoOther(views: seq<View>, name: string)
    requires forall v :: v in views ==> v.name != name
    ensures Others(views, name) == views
  {
    if views != [] {
      NoOther(views[..|views| - 1], name);
      assert views == views[..|views| - 1] + [views[|views| - 1]];
    }
  }

  lemma {:induction false} OthersJoin(a: seq<View>, b: seq<View>, name: string)
    ensures Others(a + b, name) == Others(a, name) + Others(b, name)
  {
    if b == [] {
      assert a + b == a;
    } else {
      OthersJoin(a, b[..|b| - 1], name);
      assert (a + b)[..|a + b| - 1] == a + b[..|b| - 1];
    }
  }

  /** Taking out the one view of a name leaves the others. */
  lemma {:induction false} WithoutIsOthers(views: seq<View>, name: string)
    requires Apart(views)
    ensures Without(views, name) == Others(views, name)
  {
    var i := IndexOf(Names(views), name);
    if i < 0 {
      forall v | v in views ensures v.name != name {
        var k :| 0 <= k < |views| && views[k] == v;
        assert Names(views)[k] == v.name;
      }
      NoOther(views, name);
    } else {
      var before, after := views[..i], views[i + 1..];
      assert views == before + [views[i]] + after;
      Around(before, views[i], after);
    }
  }

  lemma {:induction false} Around(before: seq<View>, v: View, after: seq<View>)
    requires forall w :: w in before || w in after ==> w.name != v.name
    ensures Others(before + [v] + after, v.name) == before + after
  {
    hide Others;
    OthersJoin(before + [v], after, v.name);
    OthersJoin(before, [v], v.name);
    NoOther(before, v.name);
    NoOther(after, v.name);
    Alone(v);
  }

  lemma {:induction false} Alone(v: View)
    ensures Others([v], v.name) == []
  {
    assert [v][..0] == [];
  }

  /** Every peer is as it was but for its probers and views, which are those of the state. */
  ghost predicate Served(s: State, t: State) {
    && |t.peers| == |s.peers| && |Stamps(t)| == |t.defs|
    && forall k :: 0 <= k < |t.peers| ==>
         t.peers[k] == s.peers[k].(probers := Stamps(t), paths := t.shared)
  }

  function Stamps(s: State): seq<nat> {
    if s.peers == [] then [] else s.peers[0].probers
  }

  function Configured(s: State): seq<View> {
    if s.peers != [] && |Ids(s)| == |s.defs| then Members(s) else []
  }

  /**
   * RemovePath, exactly. It answers by the first that applies: not open, not configured, the last bound path;
   * and then changes nothing. Otherwise the path leaves the configuration, the sockets, the deferred paths,
   * every peer's views and, with its id, every peer's probers; every other path keeps its id, its place in the
   * order and its side.
   */
  lemma {:induction false} RemovedIs(s: State, name: string)
    requires Inv(s)
    ensures var (t, r) := Removed(s, name);
      && r == (if !s.IsOpen() then NotOpen else if name !in s.defs then NoSuchPath
               else if Names(s.shared) == [name] then LastPath else Ok)
      && (r != Ok ==> t == s)
      && (r == Ok ==>
            && Configured(t) == Others(Configured(s), name) && Served(s, t) && t.nextPathId == s.nextPathId
            && t.shared == Others(s.shared, name) && t.deferred == Others(s.deferred, name))
  {
    hide Distinct, Apart, Without, Others;
    var (t, r) := Removed(s, name);
    LastIs(s, name);
    if r == Ok {
      var i := IndexOf(s.defs, name);
      MembersApart(s);
      OpenApart(s);
      MembersDrop(s.defs, Ids(s), i);
      WithoutIsOthers(Members(s), name);
      WithoutIsOthers(s.shared, name);
      WithoutIsOthers(s.deferred, name);
      NotBound(s.shared, name);
    }
  }

  lemma {:induction false} LastIs(s: State, name: string)
    requires Inv(s)
    ensures Names(s.shared) == [name] <==> |s.shared| == 1 && IndexOf(Names(s.shared), name) >= 0
  {
    hide Partition, Distinct;
  }

  lemma {:induction false} OpenApart(s: State)
    requires Inv(s)
    ensures Apart(s.shared) && Apart(s.deferred)
  {
    if s.IsOpen() { Halves(s.shared, s.deferred); }
  }

  /**
   * AddPath, exactly. It is refused by the first reason that applies and then changes nothing. Otherwise the
   * path is configured last, with the next id, for every peer; it is bound behind the other sockets if its
   * socket could be bound, and deferred behind the others if its address is not there yet.
   */
  lemma {:induction false} AddedIs(s: State, name: string, valid: bool, listen: Listen, attach: bool)
    requires Inv(s)
    ensures var (t, r) := Added(s, name, valid, listen, attach); var v := View(name, s.nextPathId);
      && (r == Ok <==>
            && s.IsOpen() && valid && name !in s.defs && s.nextPathId <= 255
            && (forall k :: 0 <= k < |s.peers| ==> s.peers[k].factory)
            && (listen == NotAvailable || (listen == Bound && attach)))
      && (r != Ok ==> t == s)
      && (r == Ok ==>
            && Configured(t) == Configured(s) + [v] && Served(s, t) && t.nextPathId == s.nextPathId + 1
            && t.shared == s.shared + (if listen == Bound then [v] else [])
            && t.deferred == s.deferred + (if listen == Bound then [] else [v]))
  {
    hide Partition, Distinct;
    var (t, r) := Added(s, name, valid, listen, attach);
    if r == Ok { assert Configured(t) == Configured(s) + [View(name, s.nextPathId)]; }
  }

  // ----- opening and promoting -----

  ghost predicate Before(all: seq<View>, v: View, w: View) {
    exists i, j :: 0 <= i < j < |all| && all[i] == v && all[j] == w
  }

  /** The views of part stand in the order of all. */
  ghost predicate InOrder(all: seq<View>, part: seq<View>) {
    forall a, b :: 0 <= a < b < |part| ==> Before(all, part[a], part[b])
  }

  lemma {:induction false} ThoseInOrder<M>(all: seq<View>, marks: seq<M>, how: M)
    requires |all| <= |marks|
    ensures InOrder(all, Those(all, marks, how))
  {
    if all != [] {
      var n := |all| - 1;
      var init, part, before := all[..n], Those(all, marks, how), Those(all[..n], marks, how);
      ThoseInOrder(init, marks, how);
      ThoseAmong(init, marks, how);
      forall a, b | 0 <= a < b < |part| ensures Before(all, part[a], part[b]) {
        if b < |before| {
          assert Before(init, before[a], before[b]);
          var i, j :| 0 <= i < j < |init| && init[i] == before[a] && init[j] == before[b];
          assert all[i] == part[a] && all[j] == part[b];
        } else {
          assert before[a] in init;
          var i :| 0 <= i < |init| && init[i] == before[a];
          assert all[i] == part[a] && all[n] == part[b];
        }
      }
    }
  }

  lemma {:induction false} ThoseAmong<M>(all: seq<View>, marks: seq<M>, how: M)
    requires |all| <= |marks|
    ensures forall v :: v in Those(all, marks, how) ==> v in all
  {
    if all != [] {
      ThoseAmong(all[..|all| - 1], marks, how);
      assert all == all[..|all| - 1] + [all[|all| - 1]];
    }
  }

  /**
   * Open, exactly. It succeeds if and only if the bind is closed, no socket fails, one is bound and every peer's
   * transport is built. Then the paths whose socket was bound are bound and those whose address is not there
   * yet deferred, both in the order of the configuration, which stays. Otherwise nothing is bound.
   */
  lemma {:induction false} OpenedIs(s: State, listens: seq<Listen>, adaptive: bool)
    requires Inv(s) && |listens| == |s.defs|
    ensures var (t, r) := Opened(s, listens, adaptive);
      && (r == Ok <==> !s.IsOpen() && adaptive && (forall i :: 0 <= i < |listens| ==> listens[i] != Failed)
                       && exists i :: 0 <= i < |listens| && listens[i] == Bound)
      && Configured(t) == Configured(s) && Served(s, t)
      && (r == Ok ==>
            && (forall i :: 0 <= i < |listens| ==> (Configured(s)[i] in t.shared <==> listens[i] == Bound))
            && (forall i :: 0 <= i < |listens| ==> (Configured(s)[i] in t.deferred <==> listens[i] == NotAvailable))
            && InOrder(Configured(s), t.shared) && InOrder(Configured(s), t.deferred))
      && (r == AlreadyOpen ==> t == s)
      && (r != Ok && r != AlreadyOpen ==> t.shared == [] && t.deferred == [])
  {
    hide Distinct, Those, InOrder, Apart, Raise, Partition;
    var (t, r) := Opened(s, listens, adaptive);
    MembersApart(s);
    Marked(Members(s), listens, Bound);
    Marked(Members(s), listens, NotAvailable);
    assert Configured(t) == Configured(s);
  }

  lemma {:induction false} Marked(all: seq<View>, listens: seq<Listen>, how: Listen)
    requires |all| == |listens| && Apart(all)
    ensures var part := Those(all, listens, how);
      && (forall i :: 0 <= i < |all| ==> (all[i] in part <==> listens[i] == how))
      && (part != [] <==> exists i :: 0 <= i < |listens| && listens[i] == how) && InOrder(all, part)
  {
    hide Those, InOrder, Apart;
    ThoseIs(all, listens, how);
    ThoseInOrder(all, listens, how);
    var part := Those(all, listens, how);
    if part != [] {
      assert part[0] in part;
      var i :| 0 <= i < |all| && all[i] == part[0];
      assert listens[i] == how;
    }
  }

  lemma {:induction false} RaiseReached(next: nat, views: seq<View>)
    ensures Raise(next, views) == next || exists v :: v in views && Raise(next, views) == v.id + 1
  {
    if views != [] {
      RaiseReached(next, views[..|views| - 1]);
      assert views == views[..|views| - 1] + [views[|views| - 1]];
    }
  }

  /** A successful Open raises the mark no further than one past the highest id. */
  lemma {:induction false} OpenedMark(s: State, listens: seq<Listen>, adaptive: bool)
    requires Inv(s) && |listens| == |s.defs| && Opened(s, listens, adaptive).1 == Ok
    ensures var next := Opened(s, listens, adaptive).0.nextPathId;
      next >= s.nextPathId && (next == s.nextPathId || exists v :: v in Configured(s) && next == v.id + 1)
  {
    hide Distinct, Partition;
    var bound, deferred := Those(Members(s), listens, Bound), Those(Members(s), listens, NotAvailable);
    RaiseCovers(s.nextPathId, bound);
    RaiseCovers(Raise(s.nextPathId, bound), deferred);
    RaiseReached(s.nextPathId, bound);
    RaiseReached(Raise(s.nextPathId, bound), deferred);
    ThoseAmong(Members(s), listens, Bound);
    ThoseAmong(Members(s), listens, NotAvailable);
  }

  /** Reconciliation, exactly: the deferred paths that could be bound are bound, behind the others and in order. */
  lemma {:induction false} ReconciledIs(s: State, promoted: seq<bool>)
    requires Inv(s) && |promoted| == |s.deferred|
    ensures var t := Reconciled(s, promoted);
      && Configured(t) == Configured(s) && t.nextPathId == s.nextPathId
      && (!s.IsOpen() ==> t == s)
      && (s.IsOpen() ==>
            && Served(s, t) && s.shared <= t.shared
            && (forall i :: 0 <= i < |promoted| ==>
                  (s.deferred[i] in t.shared[|s.shared|..] <==> promoted[i])
                  && (s.deferred[i] in t.deferred <==> !promoted[i]))
            && (forall v :: v in t.shared[|s.shared|..] || v in t.deferred ==> v in s.deferred)
            && InOrder(s.deferred, t.shared[|s.shared|..]) && InOrder(s.deferred, t.deferred))
  {
    hide Distinct, Those, InOrder, Apart;
    var t := Reconciled(s, promoted);
    OpenApart(s);
    ThoseIs(s.deferred, promoted, true);
    ThoseIs(s.deferred, promoted, false);
    ThoseInOrder(s.deferred, promoted, true);
    ThoseInOrder(s.deferred, promoted, false);
    assert Configured(t) == Configured(s);
    assert s.IsOpen() ==> t.shared[|s.shared|..] == Those(s.deferred, promoted, true);
  }

  /** Close: no socket, view or deferred path is left, and the configuration with its ids stays. */
  lemma {:induction false} ClosedIs(s: State)
    requires Inv(s)
    ensures var t := Closed(s);
      && t.shared == [] && t.deferred == [] && Served(s, t) && !t.IsOpen()
      && Configured(t) == Configured(s) && t.nextPathId == s.nextPathId
  {
    hide Partition, Distinct;
    assert Configured(Closed(s)) == Configured(s);
  }

  // ----- how long a path stays -----

  /**
   * A new peer, exactly. It is refused by the first reason that applies and then changes nothing. Otherwise it
   * is the last of the peers, with a prober for each configured path and no view, and nothing else changes.
   */
  lemma {:induction false} EnrolledIs(
    s: State, name: string, keyed: bool, present: bool, probers: seq<nat>, factory: bool)
    requires s.peers != []
    ensures var (t, r) := Enrolled(s, name, keyed, present, probers, factory);
      var known := exists i :: 0 <= i < |s.peers| && s.peers[i].name == name;
      && r == (if name == "" || !keyed then BadPeer
               else if s.peers[0].paths != [] then AlreadyOpen
               else if |probers| != |s.defs| || !present then BadPeer
               else if known then DuplicatePeer else Ok)
      && t == s.(peers := s.peers + if r == Ok then [Peer(name, probers, [], factory)] else [])
  {
    assert s.peers + [] == s.peers;
    assert forall i :: 0 <= i < |s.peers| ==> PeerNames(s.peers)[i] == s.peers[i].name;
  }

  /** The path is nowhere: not configured, not bound, not deferred, and in no peer's views. */
  ghost predicate Absent(s: State, name: string) {
    && name !in s.defs
    && (forall v :: v in s.shared || v in s.deferred ==> v.name != name)
    && forall k, v :: 0 <= k < |s.peers| && v in s.peers[k].paths ==> v.name != name
  }

  lemma {:induction false} AbsentIff(s: State, name: string)
    requires Inv(s)
    ensures Absent(s, name) <==> name !in s.defs
  {
    hide Distinct;
    if s.IsOpen() {
      forall v | v in s.shared || v in s.deferred ensures v.name in s.defs {
        assert v in s.shared + s.deferred;
        assert v in Members(s);
      }
    }
  }

  /** The operation brings the path in. */
  ghost predicate Admits(s: State, op: Op, name: string) {
    s.peers != [] && op.Add? && op.name == name && Added(s, name, op.valid, op.listen, op.attach).1 == Ok
  }

  /** The operation takes the path out. */
  ghost predicate Expels(s: State, op: Op, name: string) {
    && s.peers != [] && |s.defs| == |Ids(s)|
    && op.Remove? && op.name == name && Removed(s, name).1 == Ok
  }

  lemma {:induction false} MemberNamed(s: State, name: string)
    requires Inv(s)
    ensures name in s.defs <==> exists v :: v in Configured(s) && v.name == name
  {
    hide Partition, Distinct;
    if name in s.defs {
      var i :| 0 <= i < |s.defs| && s.defs[i] == name;
      assert Members(s)[i] in Members(s);
    }
  }

  /** A path is configured after an operation exactly if it was, with the same id, and is not taken out, or comes in. */
  lemma {:induction false} StepMembers(s: State, op: Op, v: View)
    requires Inv(s) && Possible(s, op)
    ensures v in Configured(Step(s, op)) <==>
      || (v in Configured(s) && !Expels(s, op, v.name))
      || (v.id == s.nextPathId && Admits(s, op, v.name))
  {
    hide Inv, Opened, Added, Removed, Reconciled, Closed, Enrolled, Configured;
    InvPeers(s);
    match op
    case Open(listens, adaptive) => OpenedIs(s, listens, adaptive);
    case Close => ClosedIs(s);
    case Add(name, valid, listen, attach) => AddedIs(s, name, valid, listen, attach); AddedMember(s, name, v);
    case Remove(name) => RemovedIs(s, name); OthersAre(Configured(s), name);
    case Reconcile(promoted) => ReconciledIs(s, promoted);
    case Enroll(name, keyed, present, probers, factory) => EnrolledMembers(s, name, keyed, present, probers, factory);
  }

  lemma {:induction false} InvPeers(s: State)
    requires Inv(s)
    ensures s.peers != [] && |s.defs| == |Ids(s)|
  {
  }

  lemma {:induction false} AddedMember(s: State, name: string, v: View)
    ensures v in Configured(s) + [View(name, s.nextPathId)] <==> v in Configured(s) || v == View(name, s.nextPathId)
  {
  }

  lemma {:induction false} EnrolledMembers(
    s: State, name: string, keyed: bool, present: bool, probers: seq<nat>, factory: bool)
    requires s.peers != []
    ensures Configured(Enrolled(s, name, keyed, present, probers, factory).0) == Configured(s)
  {
    var t := Enrolled(s, name, keyed, present, probers, factory).0;
    assert t.peers[0] == s.peers[0];
  }

  /**
   * Over every run, a path that is nowhere stays nowhere until an AddPath of that name succeeds, across Close
   * and Open and whatever happens to other paths.
   */
  lemma {:induction false} StaysOut(states: seq<State>, ops: seq<Op>, i: nat, j: nat, name: string)
    requires Run(states, ops) && i <= j <= |ops| && Absent(states[i], name)
    requires forall k :: i <= k < j ==> !Admits(states[k], ops[k], name)
    ensures Absent(states[j], name)
  {
    hide Absent, Inv, Admits, Step, Possible;
    if i < j {
      StaysOut(states, ops, i, j - 1, name);
      AlwaysInv(states, ops, j - 1);
      AlwaysInv(states, ops, j);
      StepIs(states[j - 1], ops[j - 1], states[j]);
      StepAbsent(states[j - 1], ops[j - 1], name);
    }
  }

  lemma {:induction false} StepAbsent(s: State, op: Op, name: string)
    requires Inv(s) && Possible(s, op) && Inv(Step(s, op)) && Absent(s, name) && !Admits(s, op, name)
    ensures Absent(Step(s, op), name)
  {
    hide Absent, Inv, Admits, Step, Possible, Configured;
    AbsentIff(s, name);
    AbsentIff(Step(s, op), name);
    MemberNamed(s, name);
    MemberNamed(Step(s, op), name);
    forall v | v in Configured(Step(s, op)) ensures v.name != name { StepMembers(s, op, v); }
  }

  lemma {:induction false} StepIs(s: State, op: Op, t: State)
    requires Inv(s) && StepOf(s, op, t)
    ensures Possible(s, op) && t == Step(s, op)
  {
  }

  /** A configured path keeps its id and stays configured until a RemovePath of that name succeeds. */
  lemma {:induction false} StaysIn(states: seq<State>, ops: seq<Op>, i: nat, j: nat, v: View)
    requires Run(states, ops) && i <= j <= |ops| && v in Configured(states[i])
    requires forall k :: i <= k < j ==> !Expels(states[k], ops[k], v.name)
    ensures v in Configured(states[j])
  {
    hide Inv, Expels, Configured;
    if i < j {
      StaysIn(states, ops, i, j - 1, v);
      AlwaysInv(states, ops, j - 1);
      StepIs(states[j - 1], ops[j - 1], states[j]);
      StepMembers(states[j - 1], ops[j - 1], v);
    }
  }
}
