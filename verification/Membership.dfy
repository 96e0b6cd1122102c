/** The paths of a bind: configured, bound and deferred ones, and every peer's probers and views of them. */
module Membership {
  import opened Basics

  /** A path as bound or deferred: its name and the id its prober is stamped with. */
  datatype View = View(name: string, id: nat)

  /** A peer: its probers, by the id each is stamped with, and its views of the bound sockets. */
  datatype Peer = Peer(name: string, probers: seq<nat>, paths: seq<View>, factory: bool)

  /** peers[0] is the primary; the bind is open while the primary has a path. */
  datatype State = State(defs: seq<string>, peers: seq<Peer>, shared: seq<View>, deferred: seq<View>, nextPathId: nat) {
    predicate IsOpen()
      requires peers != []
    {
      peers[0].paths != []
    }
  }

  /** How binding a path's socket ends: bound, its address not assignable yet, or another error. */
  datatype Listen = Bound | NotAvailable | Failed

  datatype Result =
    | Ok | AlreadyOpen | NotOpen | NoFactory | BadSource | Duplicate | Exhausted | ListenError
    | NoPath | NoSuchPath | LastPath | Desync | BadPeer | DuplicatePeer

  // ----- sequences -----

  function Drop<T>(s: seq<T>, i: nat): seq<T>
    requires i < |s|
  {
    s[..i] + s[i + 1..]
  }

  function IndexOf(names: seq<string>, name: string): (k: int)
    ensures -1 <= k < |names|
    ensures k == -1 <==> name !in names
    ensures k >= 0 ==> names[k] == name && name !in names[..k]
  {
    if names == [] then -1 else if names[0] == name then 0 else
      var k := IndexOf(names[1..], name);
      assert k >= 0 ==> names[..k + 1] == [names[0]] + names[1..][..k];
      if k < 0 then -1 else k + 1
  }

  function Names(views: seq<View>): (names: seq<string>)
    ensures |names| == |views| && forall i :: 0 <= i < |views| ==> names[i] == views[i].name
  {
    seq(|views|, i requires 0 <= i < |views| => views[i].name)
  }

  /** Without the first view of that name. */
  function Without(views: seq<View>, name: string): seq<View> {
    var i := IndexOf(Names(views), name);
    if i < 0 then views else Drop(views, i)
  }

  /** The configured paths with their ids. */
  function Zip(defs: seq<string>, ids: seq<nat>): (r: seq<View>)
    requires |defs| == |ids|
    ensures |r| == |defs| && forall i :: 0 <= i < |r| ==> r[i] == View(defs[i], ids[i])
  {
    seq(|defs|, i requires 0 <= i < |defs| => View(defs[i], ids[i]))
  }

  /** Those of the paths that are marked as given, in order. */
  function Those<M(==)>(all: seq<View>, marks: seq<M>, how: M): seq<View>
    requires |all| <= |marks|
  {
    if all == [] then [] else
      var n := |all| - 1;
      Those(all[..n], marks, how) + if marks[n] == how then [all[n]] else []
  }

  function Raise(next: nat, views: seq<View>): nat {
    if views == [] then next else
      var r := Raise(next, views[..|views| - 1]);
      if views[|views| - 1].id + 1 > r then views[|views| - 1].id + 1 else r
  }

  // ----- the steps -----

  /** Every peer sees exactly these views. */
  function Showing(peers: seq<Peer>, paths: seq<View>): (r: seq<Peer>)
    ensures |r| == |peers| && forall k :: 0 <= k < |r| ==> r[k] == peers[k].(paths := paths)
  {
    seq(|peers|, k requires 0 <= k < |peers| => peers[k].(paths := paths))
  }

  /** Every peer holds exactly these probers. */
  function Stamped(peers: seq<Peer>, ids: seq<nat>): (r: seq<Peer>)
    ensures |r| == |peers| && forall k :: 0 <= k < |r| ==> r[k] == peers[k].(probers := ids)
  {
    seq(|peers|, k requires 0 <= k < |peers| => peers[k].(probers := ids))
  }

  /** Close, and the unwinding of a failed Open. */
  function Closed(s: State): State {
    s.(shared := [], deferred := [], peers := Showing(s.peers, []))
  }

  /** The ids of the configured paths: the stamps of the primary's probers. */
  function Ids(s: State): seq<nat>
    requires s.peers != []
  {
    s.peers[0].probers
  }

  function Members(s: State): seq<View>
    requires s.peers != [] && |Ids(s)| == |s.defs|
  {
    Zip(s.defs, Ids(s))
  }

  predicate AnyFailed(listens: seq<Listen>, n: nat) {
    exists i :: 0 <= i < n <= |listens| && listens[i] == Failed
  }

  /** Open; adaptive says that every peer's transport could be built. */
  function Opened(s: State, listens: seq<Listen>, adaptive: bool): (State, Result)
    requires s.peers != [] && |Ids(s)| == |s.defs| == |listens|
  {
    if s.IsOpen() then (s, AlreadyOpen)
    else if AnyFailed(listens, |listens|) then (Closed(s), ListenError)
    else
      var bound, deferred := Those(Members(s), listens, Bound), Those(Members(s), listens, NotAvailable);
      if bound == [] then (Closed(s), NoPath)
      else
        var next := Raise(Raise(s.nextPathId, bound), deferred);
        if !adaptive then (Closed(s).(nextPathId := next), ListenError)
        else (s.(shared := bound, deferred := deferred, peers := Showing(s.peers, bound), nextPathId := next), Ok)
  }

  /** Why AddPath refuses a path before it tries to bind it. */
  function Refusal(s: State, name: string, valid: bool): Result
    requires s.peers != []
  {
    if !s.IsOpen() then NotOpen
    else if !s.peers[0].factory then NoFactory
    else if !valid then BadSource
    else if name in s.defs then Duplicate
    else if s.nextPathId > 255 then Exhausted
    else Ok
  }

  predicate AllFactories(peers: seq<Peer>) {
    forall k :: 0 <= k < |peers| ==> peers[k].factory
  }

  /** AddPath; attach says that every peer's view of the new socket could be built. */
  function Added(s: State, name: string, valid: bool, listen: Listen, attach: bool): (State, Result)
    requires s.peers != []
  {
    var refusal := Refusal(s, name, valid);
    if refusal != Ok then (s, refusal) else
      var v := View(name, s.nextPathId);
      var grown := s.(defs := s.defs + [name], nextPathId := s.nextPathId + 1,
        peers := Stamped(s.peers, Ids(s) + [v.id]));
      match listen
      case Failed => (s, ListenError)
      case NotAvailable =>
        if !AllFactories(s.peers) then (s, NoFactory) else (grown.(deferred := s.deferred + [v]), Ok)
      case Bound =>
        if !attach || !AllFactories(s.peers) then (s, ListenError)
        else (grown.(shared := s.shared + [v], peers := Showing(grown.peers, s.shared + [v])), Ok)
  }

  /** removeDurableLocked */
  function Forgotten(s: State, i: nat, name: string): State
    requires s.peers != [] && i < |s.defs| == |Ids(s)|
  {
    s.(defs := Drop(s.defs, i), peers := Stamped(s.peers, Drop(Ids(s), i)), deferred := Without(s.deferred, name))
  }

  /** RemovePath */
  function Removed(s: State, name: string): (State, Result)
    requires s.peers != [] && |s.defs| == |Ids(s)|
  {
    var i := IndexOf(s.defs, name);
    if !s.IsOpen() then (s, NotOpen)
    else if i < 0 then (s, NoSuchPath)
    else if IndexOf(Names(s.shared), name) < 0 then (Forgotten(s, i, name), Ok)
    else if |s.shared| == 1 then (s, LastPath)
    else
      var rest := Without(s.shared, name);
      (Forgotten(s.(shared := rest, peers := Showing(s.peers, rest)), i, name), Ok)
  }

  /** reconcileDeferred; promoted says which deferred paths bound and were attached for every peer. */
  function Reconciled(s: State, promoted: seq<bool>): State
    requires s.peers != [] && |promoted| == |s.deferred|
  {
    if !s.IsOpen() then s else
      var shared := s.shared + Those(s.deferred, promoted, true);
      s.(shared := shared, deferred := Those(s.deferred, promoted, false), peers := Showing(s.peers, shared))
  }

  /** The names of the peers; the first is the primary's. */
  function PeerNames(peers: seq<Peer>): (names: seq<string>)
    ensures |names| == |peers| && forall k :: 0 <= k < |peers| ==> names[k] == peers[k].name
  {
    seq(|peers|, k requires 0 <= k < |peers| => peers[k].name)
  }

  /** AddConcentratorPeer; keyed says that its key is set, present that none of its probers is missing. */
  function Enrolled(
    s: State, name: string, keyed: bool, present: bool, probers: seq<nat>, factory: bool): (State, Result)
    requires s.peers != []
  {
    if name == "" || !keyed then (s, BadPeer)
    else if s.IsOpen() then (s, AlreadyOpen)
    else if |probers| != |s.defs| || !present then (s, BadPeer)
    else if name in PeerNames(s.peers) then (s, DuplicatePeer)
    else (s.(peers := s.peers + [Peer(name, probers, [], factory)]), Ok)
  }

  // ----- the invariant -----

  ghost predicate Apart(views: seq<View>) {
    forall i, j :: 0 <= i < j < |views| ==> views[i].name != views[j].name
  }

  /** Bound and deferred paths are the configured ones, each in exactly one place. */
  ghost predicate Partition(members: seq<View>, shared: seq<View>, deferred: seq<View>) {
    Apart(shared + deferred) && forall v :: v in shared + deferred <==> v in members
  }

  /** Every peer's probers are aligned with the configured paths, and stamped alike. */
  ghost predicate Aligned(s: State) {
    && s.peers != [] && |Ids(s)| == |s.defs|
    && (forall k :: 0 <= k < |s.peers| ==> s.peers[k].probers == Ids(s))
    && Distinct(s.defs) && Distinct(Ids(s)) && Distinct(PeerNames(s.peers))
  }

  /** Every id is below the bound. */
  ghost predicate Below(ids: seq<nat>, bound: nat) {
    forall i :: 0 <= i < |ids| ==> ids[i] < bound
  }

  ghost predicate Inv(s: State) {
    && Aligned(s)
    && (forall k :: 0 <= k < |s.peers| ==> s.peers[k].paths == s.shared)
    && (!s.IsOpen() ==> s.shared == [] && s.deferred == [])
    && (s.IsOpen() ==> Partition(Members(s), s.shared, s.deferred) && Below(Ids(s), s.nextPathId))
  }

  // ----- every step keeps it -----

  lemma {:induction false} ThoseIs<M>(all: seq<View>, marks: seq<M>, how: M)
    requires |all| <= |marks| && Apart(all)
    ensures Apart(Those(all, marks, how))
    ensures forall v :: v in Those(all, marks, how) ==> v in all
    ensures forall i :: 0 <= i < |all| ==> (all[i] in Those(all, marks, how) <==> marks[i] == how)
  {
    hide Apart;
    if all == [] {
      Short([]);
    } else {
      var n := |all| - 1;
      var init, last := all[..n], all[n];
      ApartInit(all);
      ThoseIs(init, marks, how);
      var before, r := Those(init, marks, how), Those(all, marks, how);
      assert all == init + [last];
      assert last in before ==> last in init;
      Short([last]);
      Joined(before, [last]);
      assert r == before || r == before + [last];
      forall i | 0 <= i < |all| ensures all[i] in r <==> marks[i] == how {
        if i < n { assert all[i] == init[i] && init[i] != last; }
      }
    }
  }

  lemma {:induction false} Short(views: seq<View>)
    requires |views| <= 1
    ensures Apart(views)
  {
  }

  lemma {:induction false} ApartInit(all: seq<View>)
    requires all != [] && Apart(all)
    ensures Apart(all[..|all| - 1]) && forall v :: v in all[..|all| - 1] ==> v.name != all[|all| - 1].name
  {
  }

  lemma {:induction false} RaiseCovers(next: nat, views: seq<View>)
    ensures Raise(next, views) >= next && forall v :: v in views ==> v.id < Raise(next, views)
  {
    if views != [] {
      RaiseCovers(next, views[..|views| - 1]);
      assert views == views[..|views| - 1] + [views[|views| - 1]];
    }
  }

  lemma {:induction false} Joined(b: seq<View>, d: seq<View>)
    requires Apart(b) && Apart(d) && forall v, w :: v in b && w in d ==> v.name != w.name
    ensures Apart(b + d)
  {
    var all := b + d;
    forall i, j | 0 <= i < j < |all| ensures all[i].name != all[j].name {
      if i < |b| <= j { assert all[i] in b && all[j] in d; }
    }
  }

  /** Where every mark is one of two, the two selections partition the paths. */
  lemma {:induction false} MarksPartition<M>(all: seq<View>, marks: seq<M>, one: M, other: M)
    requires |all| == |marks| && Apart(all) && one != other
      && forall i :: 0 <= i < |marks| ==> marks[i] == one || marks[i] == other
    ensures Partition(all, Those(all, marks, one), Those(all, marks, other))
  {
    ThoseIs(all, marks, one);
    ThoseIs(all, marks, other);
    var b, d := Those(all, marks, one), Those(all, marks, other);
    forall v, w | v in b && w in d ensures v.name != w.name {
      var i :| 0 <= i < |all| && all[i] == v;
      var j :| 0 <= j < |all| && all[j] == w;
      assert i != j;
    }
    Joined(b, d);
  }

  lemma {:induction false} OpenKeeps(s: State, listens: seq<Listen>, adaptive: bool)
    requires Inv(s) && |listens| == |s.defs|
    ensures Inv(Opened(s, listens, adaptive).0)
  {
    var (t, r) := Opened(s, listens, adaptive);
    if r == Ok {
      hide Those, Distinct;
      assert PeerNames(t.peers) == PeerNames(s.peers);
      assert forall i :: 0 <= i < |listens| ==> listens[i] != Failed;
      MembersApart(s);
      MarksPartition(Members(s), listens, Bound, NotAvailable);
      RaiseCovers(s.nextPathId, t.shared);
      RaiseCovers(Raise(s.nextPathId, t.shared), t.deferred);
      assert Members(t) == Members(s);
      forall i | 0 <= i < |Ids(t)| ensures Ids(t)[i] < t.nextPathId { assert Members(t)[i] in t.shared + t.deferred; }
    }
  }

  lemma {:induction false} CloseKeeps(s: State)
    requires Inv(s)
    ensures Inv(Closed(s))
  {
  }

  lemma {:induction false} PartitionGrows(members: seq<View>, shared: seq<View>, deferred: seq<View>, v: View)
    requires Partition(members, shared, deferred) && forall w :: w in members ==> w.name != v.name
    ensures Partition(members + [v], shared + [v], deferred) && Partition(members + [v], shared, deferred + [v])
  {
    var all := shared + deferred;
    assert forall i :: 0 <= i < |all| ==> all[i] in all;
    assert (shared + [v]) + deferred == shared + [v] + deferred;
    assert shared + (deferred + [v]) == all + [v];
    forall i, j | 0 <= i < j < |shared + [v] + deferred|
      ensures (shared + [v] + deferred)[i].name != (shared + [v] + deferred)[j].name
    {
      var a, b := (shared + [v] + deferred)[i], (shared + [v] + deferred)[j];
      if i < |shared| { assert a == all[i]; } else if i > |shared| { assert a == all[i - 1]; }
      if j < |shared| { assert b == all[j]; } else if j > |shared| { assert b == all[j - 1]; }
    }
  }

  lemma {:induction false} AddKeeps(s: State, name: string, valid: bool, listen: Listen, attach: bool)
    requires Inv(s)
    ensures Inv(Added(s, name, valid, listen, attach).0)
  {
    var (t, r) := Added(s, name, valid, listen, attach);
    if r == Ok {
      hide Partition;
      var v := View(name, s.nextPathId);
      forall w | w in Members(s) ensures w.name != name { assert w.name in s.defs; }
      PartitionGrows(Members(s), s.shared, s.deferred, v);
      assert Members(t) == Members(s) + [v];
    }
  }

  /** Dropping the one view of a name. */
  lemma {:induction false} WithoutIs(views: seq<View>, name: string)
    requires Apart(views)
    ensures Apart(Without(views, name))
    ensures forall v :: v in Without(views, name) <==> v in views && v.name != name
  {
    var i := IndexOf(Names(views), name);
    if i >= 0 {
      var r := Drop(views, i);
      assert forall j :: 0 <= j < |views| && j != i ==> views[j] == if j < i then r[j] else r[j - 1];
    } else {
      assert forall j :: 0 <= j < |views| ==> Names(views)[j] == views[j].name;
    }
  }

  lemma {:induction false} PartitionShrinks(members: seq<View>, shared: seq<View>, deferred: seq<View>, name: string)
    requires Partition(members, shared, deferred) && Apart(members)
    ensures Partition(Without(members, name), Without(shared, name), Without(deferred, name))
  {
    Halves(shared, deferred);
    WithoutIs(members, name);
    WithoutIs(shared, name);
    WithoutIs(deferred, name);
    hide Without;
    Joined(Without(shared, name), Without(deferred, name));
  }

  lemma {:induction false} Halves(b: seq<View>, d: seq<View>)
    requires Apart(b + d)
    ensures Apart(b) && Apart(d) && forall v, w :: v in b && w in d ==> v.name != w.name
  {
    var all := b + d;
    assert forall i :: 0 <= i < |b| ==> all[i] == b[i];
    assert forall i :: 0 <= i < |d| ==> all[|b| + i] == d[i];
  }

  lemma {:induction false} DropDistinct<T>(s: seq<T>, i: nat)
    requires Distinct(s) && i < |s|
    ensures Distinct(Drop(s, i))
  {
  }

  /** Dropping entry i of the configuration drops its member, by name. */
  lemma {:induction false} MembersDrop(defs: seq<string>, ids: seq<nat>, i: nat)
    requires |defs| == |ids| && i < |defs| && Distinct(defs)
    ensures Zip(Drop(defs, i), Drop(ids, i)) == Without(Zip(defs, ids), defs[i])
  {
    assert Names(Zip(defs, ids)) == defs;
    OnlyIndex(defs, i);
    ZipDrop(defs, ids, i);
  }

  lemma {:induction false} OnlyIndex(names: seq<string>, i: nat)
    requires i < |names| && Distinct(names)
    ensures IndexOf(names, names[i]) == i
  {
  }

  lemma {:induction false} ZipDrop(defs: seq<string>, ids: seq<nat>, i: nat)
    requires |defs| == |ids| && i < |defs|
    ensures Zip(Drop(defs, i), Drop(ids, i)) == Drop(Zip(defs, ids), i)
  {
    var a, b := Zip(Drop(defs, i), Drop(ids, i)), Drop(Zip(defs, ids), i);
    forall j | 0 <= j < |a| ensures a[j] == b[j] { }
  }

  lemma {:induction false} RemoveKeeps(s: State, name: string)
    requires Inv(s)
    ensures Inv(Removed(s, name).0)
  {
    var (t, r) := Removed(s, name);
    if r == Ok {
      var i := IndexOf(s.defs, name);
      hide Distinct, Zip, Apart, Without;
      MembersApart(s);
      MembersDrop(s.defs, Ids(s), i);
      DropDistinct(s.defs, i);
      DropDistinct(Ids(s), i);
      PartitionShrinks(Members(s), s.shared, s.deferred, name);
      NotBound(s.shared, name);
      assert Partition(Members(t), t.shared, t.deferred);
      DropBelow(Ids(s), i, s.nextPathId);
    }
  }

  lemma {:induction false} NotBound(shared: seq<View>, name: string)
    ensures IndexOf(Names(shared), name) < 0 ==> Without(shared, name) == shared
    ensures |shared| > 1 ==> Without(shared, name) != []
  {
  }

  lemma {:induction false} DropBelow(ids: seq<nat>, i: nat, bound: nat)
    requires i < |ids| && Below(ids, bound)
    ensures Below(Drop(ids, i), bound)
  {
  }

  lemma {:induction false} MembersApart(s: State)
    requires Aligned(s)
    ensures Apart(Members(s))
  {
  }

  lemma {:induction false} ReconcileKeeps(s: State, promoted: seq<bool>)
    requires Inv(s) && |promoted| == |s.deferred|
    ensures Inv(Reconciled(s, promoted))
  {
    if s.IsOpen() {
      Halves(s.shared, s.deferred);
      assert forall i :: 0 <= i < |promoted| ==> promoted[i] == true || promoted[i] == false;
      MarksPartition(s.deferred, promoted, true, false);
      var up, down := Those(s.deferred, promoted, true), Those(s.deferred, promoted, false);
      Halves(up, down);
      assert forall v :: v in up || v in down ==> v in up + down;
      Joined(s.shared, up + down);
      assert s.shared + (up + down) == (s.shared + up) + down;
    }
  }

  /**
   * A peer that joins keeps the invariant if and only if it is refused or its probers are stamped as those of
   * the primary; its length is all the code can check.
   */
  lemma {:induction false} EnrollKeepsIff(
    s: State, name: string, keyed: bool, present: bool, probers: seq<nat>, factory: bool)
    requires Inv(s)
    ensures var (t, r) := Enrolled(s, name, keyed, present, probers, factory);
      Inv(t) <==> r != Ok || probers == Ids(s)
  {
    hide Partition;
    var (t, r) := Enrolled(s, name, keyed, present, probers, factory);
    if r == Ok {
      assert PeerNames(t.peers) == PeerNames(s.peers) + [name];
      assert Ids(t) == Ids(s) && t.peers[|s.peers|].probers == probers;
    }
  }

  // ----- runs -----

  datatype Op =
    | Open(listens: seq<Listen>, adaptive: bool)
    | Close
    | Add(name: string, valid: bool, listen: Listen, attach: bool)
    | Remove(name: string)
    | Reconcile(promoted: seq<bool>)
    | Enroll(name: string, keyed: bool, present: bool, probers: seq<nat>, factory: bool)

  /** The environment answers for every path there is, and stamps a new peer's probers as those of the primary. */
  ghost predicate Possible(s: State, op: Op) {
    match op
    case Open(listens, _) => |listens| == |s.defs|
    case Reconcile(promoted) => |promoted| == |s.deferred|
    case Enroll(_, _, _, probers, _) => s.peers != [] && (|probers| == |s.defs| ==> probers == Ids(s))
    case _ => true
  }

  ghost function Step(s: State, op: Op): State
    requires Inv(s) && Possible(s, op)
  {
    match op
    case Open(listens, adaptive) => Opened(s, listens, adaptive).0
    case Close => Closed(s)
    case Add(name, valid, listen, attach) => Added(s, name, valid, listen, attach).0
    case Remove(name) => Removed(s, name).0
    case Reconcile(promoted) => Reconciled(s, promoted)
    case Enroll(name, keyed, present, probers, factory) => Enrolled(s, name, keyed, present, probers, factory).0
  }

  lemma {:induction false} StepKeeps(s: State, op: Op)
    requires Inv(s) && Possible(s, op)
    ensures Inv(Step(s, op))
  {
    match op
    case Open(listens, adaptive) => OpenKeeps(s, listens, adaptive);
    case Close => CloseKeeps(s);
    case Add(name, valid, listen, attach) => AddKeeps(s, name, valid, listen, attach);
    case Remove(name) => RemoveKeeps(s, name);
    case Reconcile(promoted) => ReconcileKeeps(s, promoted);
    case Enroll(name, keyed, present, probers, factory) => EnrollKeepsIff(s, name, keyed, present, probers, factory);
  }

  /** A bind as constructed: closed, with the same distinct stamps for every peer. */
  ghost predicate Boot(s: State) {
    Aligned(s) && s.shared == [] && s.deferred == [] && forall k :: 0 <= k < |s.peers| ==> s.peers[k].paths == []
  }

  ghost predicate Run(states: seq<State>, ops: seq<Op>) {
    && |states| == |ops| + 1 && Boot(states[0])
    && forall k :: 0 <= k < |ops| ==> StepOf(states[k], ops[k], states[k + 1])
  }

  ghost predicate StepOf(s: State, op: Op, t: State) {
    Inv(s) ==> Possible(s, op) && t == Step(s, op)
  }

  /** Over every run of Open, Close, AddPath, RemovePath, reconciliation and new peers the invariant holds. */
  lemma {:induction false} AlwaysInv(states: seq<State>, ops: seq<Op>, k: nat)
    requires Run(states, ops) && k <= |ops|
    ensures Inv(states[k])
  {
    if k > 0 {
      AlwaysInv(states, ops, k - 1);
      assert StepOf(states[k - 1], ops[k - 1], states[k]);
      StepKeeps(states[k - 1], ops[k - 1]);
    }
  }

  /** Only Close takes the last socket: every other operation leaves an open bind open. */
  lemma {:induction false} StaysOpen(s: State, op: Op)
    requires Inv(s) && Possible(s, op) && s.IsOpen() && !op.Close?
    ensures Step(s, op).IsOpen()
  {
    hide Partition, Distinct, Opened, Added, Removed, Reconciled;
    match op
    case Open(listens, adaptive) => OpenAgain(s, listens, adaptive);
    case Add(name, valid, listen, attach) => AddedOpen(s, name, valid, listen, attach);
    case Remove(name) => RemovedOpen(s, name);
    case Reconcile(promoted) => PromotedOpen(s, promoted);
    case Enroll(_, _, _, _, _) =>
  }

  lemma {:induction false} OpenAgain(s: State, listens: seq<Listen>, adaptive: bool)
    requires s.peers != [] && s.IsOpen() && |Ids(s)| == |s.defs| == |listens|
    ensures Opened(s, listens, adaptive).0 == s
  {
    hide Those;
  }

  lemma {:induction false} AddedOpen(s: State, name: string, valid: bool, listen: Listen, attach: bool)
    requires s.peers != [] && s.IsOpen()
    ensures Added(s, name, valid, listen, attach).0.peers != [] && Added(s, name, valid, listen, attach).0.IsOpen()
  {
  }

  lemma {:induction false} RemovedOpen(s: State, name: string)
    requires Inv(s) && s.IsOpen()
    ensures Removed(s, name).0.peers != [] && Removed(s, name).0.IsOpen()
  {
    hide Partition, Distinct, Without, Drop;
    NotBound(s.shared, name);
  }

  lemma {:induction false} PromotedOpen(s: State, promoted: seq<bool>)
    requires Inv(s) && s.IsOpen() && |promoted| == |s.deferred|
    ensures Reconciled(s, promoted).peers != [] && Reconciled(s, promoted).IsOpen()
  {
    hide Partition, Distinct, Those;
  }

  /** An Open that succeeds opens the bind. */
  lemma {:induction false} OpenOpens(s: State, listens: seq<Listen>, adaptive: bool)
    requires Inv(s) && |listens| == |s.defs| && Opened(s, listens, adaptive).1 == Ok
    ensures Opened(s, listens, adaptive).0.IsOpen()
  {
    hide Partition, Distinct, Those;
  }

  /**
   * From a successful Open to the next Close, whatever paths are added, removed or promoted meanwhile, some
   * socket is bound and every peer has a view of every bound socket.
   */
  lemma {:induction false} BoundUntilClose(states: seq<State>, ops: seq<Op>, i: nat, j: nat)
    requires Run(states, ops) && i < j <= |ops| && ops[i].Open? && Inv(states[i]) && Possible(states[i], ops[i])
    requires Opened(states[i], ops[i].listens, ops[i].adaptive).1 == Ok
    requires forall k :: i < k < j ==> !ops[k].Close?
    ensures states[j].peers != [] && states[j].IsOpen() && states[j].shared != []
    ensures forall k :: 0 <= k < |states[j].peers| ==> states[j].peers[k].paths == states[j].shared
  {
    hide Partition, Distinct, Opened, Step;
    AlwaysInv(states, ops, j);
    AlwaysInv(states, ops, j - 1);
    assert StepOf(states[j - 1], ops[j - 1], states[j]);
    if j == i + 1 {
      OpenOpens(states[i], ops[i].listens, ops[i].adaptive);
      OpenStep(states[i], ops[i]);
    } else {
      BoundUntilClose(states, ops, i, j - 1);
      StaysOpen(states[j - 1], ops[j - 1]);
    }
  }

  lemma {:induction false} OpenStep(s: State, op: Op)
    requires Inv(s) && Possible(s, op) && op.Open?
    ensures Step(s, op) == Opened(s, op.listens, op.adaptive).0
  {
  }

  /** An id is taken in a state when a configured path carries it. */
  predicate Taken(s: State, id: nat)
    requires s.peers != []
  {
    id in Ids(s)
  }

  lemma {:induction false} OpenIds(s: State, listens: seq<Listen>, adaptive: bool)
    requires Aligned(s) && |listens| == |s.defs|
    ensures var t := Opened(s, listens, adaptive).0; t.peers != [] && t.nextPathId >= s.nextPathId && Ids(t) == Ids(s)
  {
    hide Those, Distinct;
    var bound := Those(Members(s), listens, Bound);
    RaiseCovers(s.nextPathId, bound);
    RaiseCovers(Raise(s.nextPathId, bound), Those(Members(s), listens, NotAvailable));
  }

  lemma {:induction false} AddIds(s: State, name: string, valid: bool, listen: Listen, attach: bool)
    requires Aligned(s)
    ensures var t := Added(s, name, valid, listen, attach).0;
      t.peers != [] && (t == s || (s.IsOpen() && t.nextPathId == s.nextPathId + 1 && Ids(t) == Ids(s) + [s.nextPathId]))
  {
    hide Distinct;
  }

  lemma {:induction false} RemoveIds(s: State, name: string)
    requires Aligned(s)
    ensures var t := Removed(s, name).0;
      && t.peers != [] && t.nextPathId == s.nextPathId && (t == s || s.IsOpen())
      && forall id :: id in Ids(t) ==> id in Ids(s)
  {
    hide Distinct, Without;
  }

  /** New ids come only from AddPath, at or above the high-water mark, which never falls and covers them at once. */
  lemma {:induction false} StepIds(s: State, op: Op)
    requires Inv(s) && Possible(s, op)
    ensures Inv(Step(s, op)) && Step(s, op).nextPathId >= s.nextPathId
    ensures forall id :: id in Ids(Step(s, op)) && id !in Ids(s) ==>
      s.IsOpen() && s.nextPathId <= id < Step(s, op).nextPathId
    ensures !s.IsOpen() ==> Ids(Step(s, op)) == Ids(s)
  {
    hide Opened, Added, Removed, Those;
    StepKeeps(s, op);
    match op
    case Open(listens, adaptive) => OpenIds(s, listens, adaptive);
    case Close =>
    case Add(name, valid, listen, attach) => AddIds(s, name, valid, listen, attach);
    case Remove(name) => RemoveIds(s, name);
    case Reconcile(promoted) =>
    case Enroll(_, _, _, _, _) =>
  }

  /** An id taken earlier and free now was retired while the bind was open, below the mark. */
  lemma {:induction false} RetiredBelowMark(states: seq<State>, ops: seq<Op>, i: nat, j: nat, id: nat)
    requires Run(states, ops) && i <= j <= |ops|
    requires states[i].peers != [] && states[j].peers != [] && Taken(states[i], id) && !Taken(states[j], id)
    ensures id < states[j].nextPathId
  {
    if i < j {
      AlwaysInv(states, ops, j - 1);
      var s, t := states[j - 1], states[j];
      assert StepOf(s, ops[j - 1], t);
      StepIds(s, ops[j - 1]);
      if Taken(s, id) {
        var k :| 0 <= k < |Ids(s)| && Ids(s)[k] == id;
      } else {
        RetiredBelowMark(states, ops, i, j - 1, id);
      }
    }
  }

  /** Path ids are never reused: an id that was taken and given up is not taken again, in any later state of any run. */
  lemma {:induction false} IdsNeverReused(states: seq<State>, ops: seq<Op>, i: nat, j: nat, k: nat, id: nat)
    requires Run(states, ops) && i <= j <= k <= |ops|
    requires states[i].peers != [] && states[j].peers != [] && states[k].peers != []
    requires Taken(states[i], id) && !Taken(states[j], id)
    ensures !Taken(states[k], id)
  {
    if j < k {
      AlwaysInv(states, ops, k - 1);
      var s, t := states[k - 1], states[k];
      IdsNeverReused(states, ops, i, j, k - 1, id);
      RetiredBelowMark(states, ops, i, k - 1, id);
      assert StepOf(s, ops[k - 1], t);
      StepIds(s, ops[k - 1]);
    }
  }
}
