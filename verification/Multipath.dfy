/** The bind's membership operations as the code runs them, peer by peer. */
module Multipaths {
  import opened Basics
  import opened Membership

  /** One retry of a deferred path: whether it bound, and for which peers a view could be built. */
  datatype Attempt = Attempt(bound: bool, codecs: seq<bool>)

  predicate AllTrue(flags: seq<bool>) {
    forall k :: 0 <= k < |flags| ==> flags[k]
  }

  function Promotions(attempts: seq<Attempt>): (r: seq<bool>)
    ensures |r| == |attempts| && forall i :: 0 <= i < |r| ==> r[i] == (attempts[i].bound && AllTrue(attempts[i].codecs))
  {
    seq(|attempts|, i requires 0 <= i < |attempts| => attempts[i].bound && AllTrue(attempts[i].codecs))
  }

  method Find(names: seq<string>, name: string) returns (k: int)
    ensures k == IndexOf(names, name)
  {
    for i := 0 to |names|
      invariant name !in names[..i]
    {
      if names[i] == name {
        return i;
      }
    }
    assert names[..|names|] == names;
    k := -1;
  }

  /** detachSocketGenerationsLocked: drops every peer's views. */
  method DetachAll(s: State) returns (t: State)
    ensures t == Closed(s)
  {
    var peers := s.peers;
    for k := 0 to |peers|
      invariant |peers| == |s.peers|
      invariant forall j :: 0 <= j < |peers| ==> peers[j] == if j < k then s.peers[j].(paths := []) else s.peers[j]
    {
      peers := peers[k := peers[k].(paths := [])];
    }
    t := s.(shared := [], deferred := [], peers := peers);
    assert t.peers == Showing(s.peers, []);
  }

  /** detachPeerPathBoundLocked, for every peer. */
  method DetachEach(before: seq<Peer>, name: string, shared: seq<View>) returns (peers: seq<Peer>)
    requires forall k :: 0 <= k < |before| ==> before[k].paths == shared
    ensures peers == Showing(before, Without(shared, name))
  {
    peers := before;
    for k := 0 to |before|
      invariant |peers| == |before|
      invariant forall j :: 0 <= j < |peers| ==>
        peers[j] == if j < k then before[j].(paths := Without(shared, name)) else before[j]
    {
      var i := Find(Names(peers[k].paths), name);
      if i >= 0 {
        peers := peers[k := peers[k].(paths := Drop(peers[k].paths, i))];
      }
    }
  }

  /**
   * attachSharedPathLocked: gives every peer a view of the new socket. When one peer's view cannot be built
   * the views already given are taken back, by name, and every peer is as it was.
   */
  method Attach(before: seq<Peer>, v: View, codecs: seq<bool>, shared: seq<View>) returns (peers: seq<Peer>, ok: bool)
    requires |codecs| == |before| && v.name !in Names(shared)
      && forall k :: 0 <= k < |before| ==> before[k].paths == shared
    ensures ok == AllTrue(codecs)
    ensures peers == if ok then Showing(before, shared + [v]) else before
  {
    peers := before;
    for k := 0 to |before|
      invariant |peers| == |before| && AllTrue(codecs[..k])
      invariant forall j :: 0 <= j < |peers| ==>
        peers[j] == if j < k then before[j].(paths := shared + [v]) else before[j]
    {
      if !codecs[k] {
        peers := Rollback(before, peers, k, v, shared);
        return peers, false;
      }
      peers := peers[k := peers[k].(paths := peers[k].paths + [v])];
      assert codecs[..k + 1] == codecs[..k] + [codecs[k]];
    }
    assert codecs[..|before|] == codecs;
    assert peers == Showing(before, shared + [v]);
    ok := true;
  }

  method Rollback(before: seq<Peer>, attached: seq<Peer>, n: nat, v: View, shared: seq<View>) returns (peers: seq<Peer>)
    requires n <= |before| == |attached| && v.name !in Names(shared)
      && forall k :: 0 <= k < |before| ==> before[k].paths == shared
    requires forall j :: 0 <= j < |before| ==>
      attached[j] == if j < n then before[j].(paths := shared + [v]) else before[j]
    ensures peers == before
  {
    LastByName(shared, v);
    peers := attached;
    for k := n downto 0
      invariant |peers| == |before|
      invariant forall j :: 0 <= j < |before| ==>
        peers[j] == if j < k then before[j].(paths := shared + [v]) else before[j]
    {
      var i := Find(Names(peers[k].paths), v.name);
      if i >= 0 {
        peers := peers[k := peers[k].(paths := Drop(peers[k].paths, i))];
      }
    }
  }

  lemma {:induction false} LastByName(shared: seq<View>, v: View)
    requires v.name !in Names(shared)
    ensures IndexOf(Names(shared + [v]), v.name) == |shared| && Drop(shared + [v], |shared|) == shared
  {
    var names := Names(shared + [v]);
    assert names[|shared|] == v.name;
    assert forall j :: 0 <= j < |shared| ==> names[j] == Names(shared)[j];
  }

  /** Gives every peer a prober with the new path's id. */
  method MintProbers(before: seq<Peer>, ids: seq<nat>, id: nat) returns (peers: seq<Peer>)
    requires forall k :: 0 <= k < |before| ==> before[k].probers == ids
    ensures peers == Stamped(before, ids + [id])
  {
    peers := before;
    for k := 0 to |before|
      invariant |peers| == |before|
      invariant forall j :: 0 <= j < |peers| ==>
        peers[j] == if j < k then before[j].(probers := ids + [id]) else before[j]
    {
      peers := peers[k := peers[k].(probers := peers[k].probers + [id])];
    }
  }

  class Multipath {
    var m: State

    constructor (s: State)
      requires Boot(s)
      ensures m == s && Inv(m)
    {
      m := s;
    }

    method Open(listens: seq<Listen>, adaptive: bool) returns (r: Result)
      requires Inv(m) && |listens| == |m.defs|
      modifies this
      ensures (m, r) == Opened(old(m), listens, adaptive)
    {
      if |m.peers[0].paths| != 0 {
        return AlreadyOpen;
      }
      var s, failed := BindAll(m, listens);
      if failed != Ok {
        m := DetachAll(s);
        return failed;
      }
      if |s.peers[0].paths| == 0 {
        m := DetachAll(s);
        return NoPath;
      }
      var next := RaiseMark(m.nextPathId, s.shared);
      next := RaiseMark(next, s.deferred);
      s := s.(nextPathId := next);
      if !adaptive {
        m := DetachAll(s);
        return ListenError;
      }
      m := s;
      r := Ok;
    }

    method Close()
      requires Inv(m)
      modifies this
      ensures m == Closed(old(m))
    {
      m := DetachAll(m);
    }

    method AddPath(name: string, valid: bool, listen: Listen, codecs: seq<bool>) returns (r: Result)
      requires Inv(m) && |codecs| == |m.peers|
      modifies this
      ensures (m, r) == Added(old(m), name, valid, listen, AllTrue(codecs))
    {
      hide Partition, Distinct;
      if |m.peers[0].paths| == 0 {
        return NotOpen;
      }
      if !m.peers[0].factory {
        return NoFactory;
      }
      if !valid {
        return BadSource;
      }
      var at := Find(m.defs, name);
      if at >= 0 {
        return Duplicate;
      }
      if m.nextPathId > 255 {
        return Exhausted;
      }
      var v := View(name, m.nextPathId);
      if listen == Failed {
        return ListenError;
      }
      if !AllFactories(m.peers) {
        return if listen == NotAvailable then NoFactory else ListenError;
      }
      if listen == NotAvailable {
        var peers := MintProbers(m.peers, Ids(m), v.id);
        m := m.(defs := m.defs + [name], peers := peers, deferred := m.deferred + [v], nextPathId := m.nextPathId + 1);
        return Ok;
      }
      NewName(m, name);
      var peers, ok := Attach(m.peers, v, codecs, m.shared);
      if !ok {
        return ListenError;
      }
      peers := MintProbers(peers, Ids(m), v.id);
      m := m.(shared := m.shared + [v], defs := m.defs + [name], peers := peers, nextPathId := m.nextPathId + 1);
      assert m.peers == Showing(Stamped(old(m).peers, Ids(old(m)) + [v.id]), m.shared);
      r := Ok;
    }

    method RemovePath(name: string) returns (r: Result)
      requires Inv(m)
      modifies this
      ensures (m, r) == Removed(old(m), name)
    {
      hide Partition, Distinct;
      if |m.peers[0].paths| == 0 {
        return NotOpen;
      }
      var at := Find(m.defs, name);
      if at < 0 {
        return NoSuchPath;
      }
      var sharedAt := Find(Names(m.shared), name);
      if sharedAt < 0 {
        m, r := Forget(m, at, name);
        return;
      }
      if |m.shared| == 1 {
        return LastPath;
      }
      var peers := DetachEach(m.peers, name, m.shared);
      var s := m.(peers := peers, shared := Drop(m.shared, sharedAt));
      assert PeerNames(peers) == PeerNames(m.peers);
      m, r := Forget(s, at, name);
    }

    /** Registers one more peer while the bind is closed. */
    method AddConcentratorPeer(name: string, keyed: bool, present: bool, probers: seq<nat>, factory: bool)
      returns (r: Result)
      requires Inv(m)
      modifies this
      ensures (m, r) == Enrolled(old(m), name, keyed, present, probers, factory)
      ensures Inv(m) <==> r != Ok || probers == Ids(old(m))
    {
      hide Inv;
      EnrollKeepsIff(m, name, keyed, present, probers, factory);
      InvPeers(m);
      if name == "" || !keyed {
        return BadPeer;
      }
      if |m.peers[0].paths| != 0 {
        return AlreadyOpen;
      }
      if |probers| != |m.defs| || !present {
        return BadPeer;
      }
      for k := 0 to |m.peers|
        invariant m == old(m) && name !in PeerNames(m.peers)[..k]
      {
        if m.peers[k].name == name {
          assert name in PeerNames(m.peers) by { assert PeerNames(m.peers)[k] == name; }
          return DuplicatePeer;
        }
      }
      m := m.(peers := m.peers + [Peer(name, probers, [], factory)]);
      return Ok;
    }

    method ReconcileDeferred(attempts: seq<Attempt>)
      requires Inv(m) && |attempts| == |m.deferred|
        && forall i :: 0 <= i < |attempts| ==> |attempts[i].codecs| == |m.peers|
      modifies this
      ensures m == Reconciled(old(m), Promotions(attempts))
    {
      if |m.peers[0].paths| == 0 || |m.deferred| == 0 {
        assert m.IsOpen() ==> m.shared + Those(m.deferred, Promotions(attempts), true) == m.shared;
        assert m.peers == Showing(m.peers, m.shared);
        return;
      }
      m := PromoteAll(m, attempts);
    }
  }

  lemma {:induction false} NewName(s: State, name: string)
    requires Inv(s) && s.IsOpen() && name !in s.defs
    ensures name !in Names(s.shared)
  {
    forall i | 0 <= i < |s.shared| ensures s.shared[i].name in s.defs {
      assert s.shared[i] in s.shared + s.deferred;
      assert s.shared[i] in Members(s);
    }
  }

  method RaiseMark(next: nat, views: seq<View>) returns (r: nat)
    ensures r == Raise(next, views)
  {
    r := next;
    for i := 0 to |views|
      invariant r == Raise(next, views[..i])
    {
      assert views[..i + 1][..i] == views[..i];
      if views[i].id + 1 > r {
        r := views[i].id + 1;
      }
    }
    assert views[..|views|] == views;
  }

  /** removeDurableLocked: refuses a peer whose probers are out of line, and none ever is. */
  method Forget(s: State, at: nat, name: string) returns (t: State, r: Result)
    requires Aligned(s) && at < |s.defs|
    ensures t == Forgotten(s, at, name) && r == Ok
  {
    hide Distinct;
    for k := 0 to |s.peers| {
      if |s.peers[k].probers| != |s.defs| {
        return s, Desync;
      }
    }
    var peers := s.peers;
    for k := 0 to |peers|
      invariant |peers| == |s.peers|
      invariant forall j :: 0 <= j < |peers| ==>
        peers[j] == if j < k then s.peers[j].(probers := Drop(Ids(s), at)) else s.peers[j]
    {
      peers := peers[k := peers[k].(probers := Drop(peers[k].probers, at))];
    }
    var i := Find(Names(s.deferred), name);
    var deferred := if i >= 0 then Drop(s.deferred, i) else s.deferred;
    t := s.(defs := Drop(s.defs, at), peers := peers, deferred := deferred);
    assert t.peers == Stamped(s.peers, Drop(Ids(s), at));
    r := Ok;
  }

  /** The loop of Open over the configured paths: each is bound for every peer, deferred, or fatal. */
  method BindAll(before: State, listens: seq<Listen>) returns (s: State, r: Result)
    requires Aligned(before) && |listens| == |before.defs| && before.shared == []
    requires forall k :: 0 <= k < |before.peers| ==> before.peers[k].paths == []
    ensures r == if AnyFailed(listens, |listens|) then ListenError else Ok
    ensures Closed(s) == Closed(before)
    ensures r == Ok ==>
      var bound := Those(Members(before), listens, Bound);
      s == before.(shared := bound, deferred := Those(Members(before), listens, NotAvailable),
        peers := Showing(before.peers, bound))
  {
    hide Distinct;
    var all := Members(before);
    var peers, shared, deferred: seq<View> := before.peers, [], [];
    s := before;
    for i := 0 to |before.defs|
      invariant shared == Those(all[..i], listens, Bound) && deferred == Those(all[..i], listens, NotAvailable)
      invariant peers == Showing(before.peers, shared) && forall j :: 0 <= j < i ==> listens[j] != Failed
    {
      assert all[..i + 1][..i] == all[..i];
      var v := all[i];
      if listens[i] == NotAvailable {
        deferred := deferred + [v];
        continue;
      }
      if listens[i] == Failed {
        return before, ListenError;
      }
      var ok: bool;
      peers, ok := ShowEach(before, i, v, shared);
      if !ok {
        return before, Desync;
      }
      shared := shared + [v];
    }
    assert all[..|before.defs|] == all;
    s := before.(shared := shared, deferred := deferred, peers := peers);
    assert Closed(s).peers == Closed(before).peers;
    r := Ok;
  }

  /** Gives every peer its view of path i; a peer without a prober for it would be an error, and none is. */
  method ShowEach(before: State, i: nat, v: View, shared: seq<View>) returns (peers: seq<Peer>, ok: bool)
    requires Aligned(before) && i < |before.defs|
    ensures ok && peers == Showing(before.peers, shared + [v])
  {
    hide Distinct;
    peers := Showing(before.peers, shared);
    for k := 0 to |peers|
      invariant |peers| == |before.peers|
      invariant forall j :: 0 <= j < |peers| ==>
        peers[j] == before.peers[j].(paths := if j < k then shared + [v] else shared)
    {
      if i >= |peers[k].probers| {
        return peers, false;
      }
      peers := peers[k := peers[k].(paths := peers[k].paths + [v])];
    }
    ok := true;
  }

  /** The filter of reconcileDeferred: what is promoted leaves the deferred paths, the rest stays in order. */
  method PromoteAll(before: State, attempts: seq<Attempt>) returns (s: State)
    requires Inv(before) && before.IsOpen() && |attempts| == |before.deferred|
    requires forall i :: 0 <= i < |attempts| ==> |attempts[i].codecs| == |before.peers|
    ensures s == Reconciled(before, Promotions(attempts))
  {
    hide Distinct, Partition;
    var ups := Promotions(attempts);
    var peers, shared, kept: seq<View> := before.peers, before.shared, [];
    for i := 0 to |before.deferred|
      invariant shared == before.shared + Those(before.deferred[..i], ups, true)
        && kept == Those(before.deferred[..i], ups, false)
      invariant peers == Showing(before.peers, shared)
    {
      assert before.deferred[..i + 1][..i] == before.deferred[..i];
      var v := before.deferred[i];
      if !attempts[i].bound {
        kept := kept + [v];
        continue;
      }
      PromotedIsNew(before, ups, i);
      var ok: bool;
      peers, ok := Promote(before, peers, shared, v, attempts[i].codecs);
      if !ok {
        kept := kept + [v];
        continue;
      }
      shared := shared + [v];
    }
    assert before.deferred[..|before.deferred|] == before.deferred;
    s := before.(shared := shared, deferred := kept, peers := peers);
  }

  lemma {:induction false} PromotedIsNew(s: State, ups: seq<bool>, i: nat)
    requires Inv(s) && s.IsOpen() && i < |s.deferred| == |ups|
    ensures s.deferred[i] in Members(s)
    ensures s.deferred[i].name !in Names(s.shared + Those(s.deferred[..i], ups, true))
  {
    var d := s.deferred;
    Halves(s.shared, d);
    assert d[i] in s.shared + d;
    ThoseIs(d[..i], ups, true);
    var before := s.shared + Those(d[..i], ups, true);
    forall j | 0 <= j < |before| ensures before[j].name != d[i].name {
      if j >= |s.shared| {
        assert before[j] in Those(d[..i], ups, true);
        assert before[j] in d[..i];
      } else {
        assert before[j] in s.shared && d[i] in d;
      }
    }
  }

  /** promoteDeferredLocked: finds the path's configured place, reuses every peer's prober there, and attaches it. */
  method Promote(s: State, before: seq<Peer>, shared: seq<View>, v: View, codecs: seq<bool>)
    returns (peers: seq<Peer>, ok: bool)
    requires Aligned(s) && v in Members(s) && |codecs| == |s.peers| && before == Showing(s.peers, shared)
      && v.name !in Names(shared)
    ensures ok == AllTrue(codecs)
    ensures peers == if ok then Showing(s.peers, shared + [v]) else before
  {
    var at := Find(s.defs, v.name);
    AtItsPlace(s, v, at);
    if at < 0 {
      return before, false;
    }
    for k := 0 to |before| {
      if at >= |before[k].probers| {
        return before, false;
      }
    }
    var stamped := View(v.name, before[0].probers[at]);
    assert stamped == v;
    peers, ok := Attach(before, stamped, codecs, shared);
    if ok { assert peers == Showing(s.peers, shared + [v]); }
  }

  lemma {:induction false} AtItsPlace(s: State, v: View, at: int)
    requires Aligned(s) && v in Members(s) && at == IndexOf(s.defs, v.name)
    ensures 0 <= at < |s.defs| && Members(s)[at] == v
  {
    var i :| 0 <= i < |s.defs| && Members(s)[i] == v;
    assert s.defs[i] == v.name;
  }

  lemma {:induction false} InvPeers(s: State)
    requires Inv(s)
    ensures s.peers != []
  {
  }
}
