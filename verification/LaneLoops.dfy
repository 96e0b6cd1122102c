/** Loops over a lane's transmissions, in any order, against the functions that describe them. */
module LaneLoops {
  import opened Packets
  import opened TransportState
  import LaneLaws

  lemma {:induction false} OnlyAdds(m: map<nat, Attempt>, keys: set<nat>, s: nat, w: Share, n: nat)
    requires s in m && s !in keys
    ensures Sum(Only(m, keys + {s}), w, n) == Sum(Only(m, keys), w, n) + if 1 <= s <= n then Weight(m[s], w) else 0
  {
    if n > 0 {
      OnlyAdds(m, keys, s, w, n - 1);
    }
  }

  lemma {:induction false} NoneRemoved(l: Lane)
    ensures Release(l, {}) == l && Remove(l, {}) == l
  {
    assert Only(l.attempts, {}) == map[];
    LaneLaws.SumEmpty(InFlight, l.counter);
    LaneLaws.SumEmpty(InFlightOf(Realtime), l.counter);
    LaneLaws.SumEmpty(InFlightOf(Small), l.counter);
    LaneLaws.SumEmpty(InFlightOf(Bulk), l.counter);
    assert l.attempts - {} == l.attempts;
  }

  /** release: returns one transmission's bytes to the lane's window. */
  function ReleaseOne(l: Lane, a: Attempt): Lane {
    l.(inflight := l.inflight - a.bytes,
       classInflight :=
         if a.carried.Datagram? then l.classInflight.Add(a.carried.class_, 0 - a.bytes) else l.classInflight)
  }

  /** Releasing one more transmission, unless it was released before, is releasing the larger set. */
  lemma {:induction false} ReleaseMore(l: Lane, keys: set<nat>, s: nat)
    requires s in l.attempts && 1 <= s <= l.counter && s !in keys
    ensures Release(l, keys + {s})
         == if l.attempts[s].released then Release(l, keys) else ReleaseOne(Release(l, keys), l.attempts[s])
  {
    OnlyAdds(l.attempts, keys, s, InFlight, l.counter);
    OnlyAdds(l.attempts, keys, s, InFlightOf(Realtime), l.counter);
    OnlyAdds(l.attempts, keys, s, InFlightOf(Small), l.counter);
    OnlyAdds(l.attempts, keys, s, InFlightOf(Bulk), l.counter);
  }

  /** Every transmission a lane remembers has a number it has used. */
  ghost predicate Numbered(l: Lane) {
    forall s :: s in l.attempts ==> 1 <= s <= l.counter
  }

  /** The timeout sweep of Poll over one lane. */
  method TimeOutLane(l: Lane, rto: nat, now: Time) returns (r: Lane)
    requires Numbered(l)
    ensures r == TimeOut(l, rto, now)
  {
    hide Release, Remove, Sum, Only, Weight;
    ghost var late, gone := Overdue(l, rto, now), Overdue(l, FEEDBACK_HORIZON, now);
    r := l;
    var todo := l.attempts.Keys;
    ghost var done: set<nat> := {};
    NoneRemoved(l);
    assert done * (late + gone) == {};
    while todo != {}
      invariant todo !! done && todo + done == l.attempts.Keys
      invariant r == Release(l, done * (late + gone)).(attempts := r.attempts)
      invariant forall s :: s in r.attempts <==> s in l.attempts && !(s in done && s in gone)
      invariant forall s :: s in r.attempts ==>
        r.attempts[s] == if s in done && s in late then l.attempts[s].(released := true) else l.attempts[s]
      decreases todo
    {
      var s: nat :| s in todo;
      var a := r.attempts[s];
      ghost var before := done * (late + gone);
      ReleaseMore(l, before, s);
      done := done + {s};
      assert done * (late + gone) == before + (if s in late + gone then {s} else {});
      if !a.released && now - a.sent >= rto {
        r := ReleaseOne(r, a);
        a := a.(released := true);
        r := r.(attempts := r.attempts[s := a]);
      }
      if now - a.sent >= FEEDBACK_HORIZON {
        if !a.released {
          r := ReleaseOne(r, a);
        }
        r := r.(attempts := r.attempts - {s});
      }
      assert before + {} == before;
      todo := todo - {s};
    }
    assert done == l.attempts.Keys && done * (late + gone) == late + gone;
    assert r.attempts == TimeOut(l, rto, now).attempts;
  }

  /** Drops one transmission, returning its bytes unless they were returned before. */
  function Discard(l: Lane, s: nat, a: Attempt): Lane {
    (if a.released then l else ReleaseOne(l, a)).(attempts := l.attempts - {s})
  }

  /** The lane after some transmissions are dropped, with the given acknowledged bytes. */
  function Swept(l: Lane, keys: set<nat>, acked: nat): Lane {
    Remove(l, keys).(acked := acked)
  }

  lemma {:induction false} DiscardMore(l: Lane, keys: set<nat>, s: nat, acked: nat)
    requires s in l.attempts && 1 <= s <= l.counter && s !in keys
    ensures Swept(l, keys + {s}, acked) == Discard(Swept(l, keys, acked), s, l.attempts[s])
    ensures s in Swept(l, keys, acked).attempts && Swept(l, keys, acked).attempts[s] == l.attempts[s]
  {
    hide Release;
    ReleaseMore(l, keys, s);
    ReleaseParts(l, keys);
    ReleaseParts(l, keys + {s});
    assert l.attempts - (keys + {s}) == l.attempts - keys - {s};
  }

  lemma {:induction false} SweptAcked(l: Lane, keys: set<nat>, acked: nat)
    ensures Swept(l, keys, acked).acked == acked
  {
  }

  lemma {:induction false} ReleaseParts(l: Lane, keys: set<nat>)
    ensures Release(l, keys) == l.(inflight := Release(l, keys).inflight,
      classInflight := Release(l, keys).classInflight)
  {
  }

  /** Whether the bitmap has moved past a transmission of one of the given datagrams. */
  predicate PassedBy(l: Lane, a: Acknowledgement, numbers: set<nat>, s: nat)
    requires s in l.attempts
  {
    && l.attempts[s].carried.Datagram?
    && (l.attempts[s].carried.number in numbers || a.Received(l.attempts[s].carried.number))
    && s < a.high && a.high - s >= 64
  }

  lemma {:induction false} PassedWhen(l: Lane, a: Acknowledgement, numbers: set<nat>, s: nat)
    requires s in l.attempts
    ensures s in Passed(l, a, numbers) <==> !a.Reports(s) && PassedBy(l, a, numbers, s)
    ensures s in Reported(l, a) <==> a.Reports(s)
  {
  }

  /** The sweep over the lane an acknowledgement arrived on: confirmed transmissions go, and those passed by. */
  method SweepLane(acked: set<nat>, l: Lane, a: Acknowledgement, fresh_: bool)
    returns (r: Lane, numbers: set<nat>, through: nat, ghost late: set<nat>)
    requires Numbered(l)
    ensures Passed(l, a, acked) <= late <= Passed(l, a, acked + Numbers(l.attempts, Reported(l, a)))
    ensures numbers == Numbers(l.attempts, Reported(l, a))
    ensures r == Swept(l, Reported(l, a) + late,
      l.acked + Sum(Only(l.attempts, Reported(l, a)), Outstanding, l.counter))
    ensures through == MatchedThrough(l, a, fresh_)
  {
    hide Swept, Discard, Sum, Only, Weight, Numbers, Reported, Passed, Acknowledgement.Reports,
         Acknowledgement.Received;
    r, numbers, through := l, {}, 0;
    late := {};
    var todo := l.attempts.Keys;
    ghost var done: set<nat>, got: set<nat> := {}, {};
    NoneSwept(l);
    assert got + late == {};
    while todo != {}
      invariant todo !! done && todo + done == l.attempts.Keys && got <= done && late <= done && got !! late
      invariant got <= Reported(l, a) && done * Reported(l, a) <= got
      invariant r == Swept(l, got + late, l.acked + Sum(Only(l.attempts, got), Outstanding, l.counter))
      invariant numbers == Numbers(l.attempts, got)
      invariant late <= Passed(l, a, acked + numbers)
      invariant done * Passed(l, a, acked) <= late
      invariant through == if a.high in done then MatchedThrough(l, a, fresh_) else 0
      decreases todo
    {
      var s: nat :| s in todo;
      var sent := l.attempts[s];
      done := done + {s};
      PassedWhen(l, a, acked, s);
      PassedWhen(l, a, acked + numbers, s);
      ghost var counted := l.acked + Sum(Only(l.attempts, got), Outstanding, l.counter);
      assert r.acked == counted by { SweptAcked(l, got + late, counted); }
      DiscardMore(l, got + late, s, counted);
      if a.Reports(s) {
        Reporting(l, a, got, late, s, acked);
        got := got + {s};
        if sent.carried.Datagram? {
          numbers := numbers + {sent.carried.number};
        }
        r := Discard(r, s, sent).(acked := r.acked + sent.bytes);
        if fresh_ && s == a.high {
          through := sent.through;
        }
      } else if PassedBy(l, a, acked + numbers, s) {
        assert got + late + {s} == got + (late + {s});
        late := late + {s};
        r := Discard(r, s, sent);
      } else {
        assert s !in Passed(l, a, acked) by { PassedGrows(l, a, acked, acked + numbers); }
      }
      todo := todo - {s};
    }
    assert got == Reported(l, a) by { ReportedKeys(l, a); }
    assert done * Passed(l, a, acked) == Passed(l, a, acked) by { ReportedKeys(l, a); PassedKeys(l, a, acked); }
  }

  lemma {:induction false} ReportedKeys(l: Lane, a: Acknowledgement)
    ensures Reported(l, a) <= l.attempts.Keys
  {
  }

  lemma {:induction false} PassedKeys(l: Lane, a: Acknowledgement, numbers: set<nat>)
    ensures Passed(l, a, numbers) <= l.attempts.Keys
  {
  }

  lemma {:induction false} NoneSwept(l: Lane)
    ensures Swept(l, {}, l.acked + Sum(Only(l.attempts, {}), Outstanding, l.counter)) == l
      && Numbers(l.attempts, {}) == {}
  {
    NoneRemoved(l);
    NoneCounted(l);
  }

  /** Counting one more reported transmission. */
  lemma {:induction false} Reporting(
    l: Lane, a: Acknowledgement, got: set<nat>, late: set<nat>, s: nat, acked: set<nat>)
    requires s in l.attempts && 1 <= s <= l.counter && s !in got + late
    ensures var n := l.acked + Sum(Only(l.attempts, got), Outstanding, l.counter);
      && Swept(l, (got + {s}) + late, l.acked + Sum(Only(l.attempts, got + {s}), Outstanding, l.counter))
         == Discard(Swept(l, got + late, n), s, l.attempts[s]).(acked := n + l.attempts[s].bytes)
    ensures Numbers(l.attempts, got + {s})
         == Numbers(l.attempts, got) + if l.attempts[s].carried.Datagram? then {l.attempts[s].carried.number} else {}
    ensures Passed(l, a, acked + Numbers(l.attempts, got)) <= Passed(l, a, acked + Numbers(l.attempts, got + {s}))
  {
    hide Remove, Passed, Numbers, Sum, Only;
    assert (got + {s}) + late == (got + late) + {s};
    OnlyAdds(l.attempts, got, s, Outstanding, l.counter);
    NumbersAdd(l.attempts, got, s);
    PassedGrows(l, a, acked + Numbers(l.attempts, got), acked + Numbers(l.attempts, got + {s}));
    SweptMore(l, got + late, s);
  }

  lemma {:induction false} SweptMore(l: Lane, keys: set<nat>, s: nat)
    requires s in l.attempts && 1 <= s <= l.counter && s !in keys
    ensures forall n: nat, m: nat ::
      Swept(l, keys + {s}, m) == Discard(Swept(l, keys, n), s, l.attempts[s]).(acked := m)
  {
    hide Remove;
    forall n: nat, m: nat ensures Swept(l, keys + {s}, m) == Discard(Swept(l, keys, n), s, l.attempts[s]).(acked := m) {
      DiscardMore(l, keys, s, n);
    }
  }

  lemma {:induction false} NoneCounted(l: Lane)
    ensures Sum(Only(l.attempts, {}), Outstanding, l.counter) == 0 && Numbers(l.attempts, {}) == {}
  {
    assert Only(l.attempts, {}) == map[];
    LaneLaws.SumEmpty(Outstanding, l.counter);
  }

  lemma {:induction false} NumbersAdd(m: map<nat, Attempt>, keys: set<nat>, s: nat)
    requires s in m
    ensures Numbers(m, keys + {s}) == Numbers(m, keys) + if m[s].carried.Datagram? then {m[s].carried.number} else {}
  {
    var more := Numbers(m, keys + {s});
    forall n | n in Numbers(m, keys) ensures n in more {
      var k :| k in m && k in keys && m[k].carried.Datagram? && m[k].carried.number == n;
      assert k in keys + {s};
    }
    if m[s].carried.Datagram? { assert s in keys + {s}; }
  }

  lemma {:induction false} PassedGrows(l: Lane, a: Acknowledgement, few: set<nat>, many: set<nat>)
    requires few <= many
    ensures Passed(l, a, few) <= Passed(l, a, many)
  {
  }

  lemma {:induction false} Counted(l: Lane, s: nat)
    requires s in l.attempts
    ensures Weight(l.attempts[s], Outstanding) == l.attempts[s].bytes
  {
  }

  /** confirmArrived: every transmission up to the acknowledged number arrived. */
  method ConfirmLane(l: Lane, high: nat) returns (r: Lane, numbers: set<nat>)
    requires Numbered(l)
    ensures numbers == Numbers(l.attempts, Prefix(l, high))
    ensures r == Remove(l, Prefix(l, high)).(
      acked := l.acked + Sum(Only(l.attempts, Prefix(l, high)), Outstanding, l.counter))
  {
    hide Release, Sum, Only, Weight, Numbers;
    r, numbers := l, {};
    var todo := l.attempts.Keys;
    ghost var done: set<nat> := {};
    ghost var keys := Prefix(l, high);
    NoneRemoved(l);
    NoneCounted(l);
    assert done * keys == {} && l.attempts - {} == l.attempts;
    while todo != {}
      invariant todo !! done && todo + done == l.attempts.Keys
      invariant r == Release(l, done * keys).(
                       attempts := l.attempts - (done * keys),
                       acked := l.acked + Sum(Only(l.attempts, done * keys), Outstanding, l.counter))
      invariant numbers == Numbers(l.attempts, done * keys)
      decreases todo
    {
      var s: nat :| s in todo;
      var sent := l.attempts[s];
      ghost var before := done * keys;
      done := done + {s};
      if s <= high {
        assert done * keys == before + {s};
        ReleaseMore(l, before, s);
        OnlyAdds(l.attempts, before, s, Outstanding, l.counter);
        NumbersAdd(l.attempts, before, s);
        Counted(l, s);
        if !sent.released {
          r := ReleaseOne(r, sent);
        }
        r := r.(acked := r.acked + sent.bytes);
        if sent.carried.Datagram? {
          numbers := numbers + {sent.carried.number};
        }
        r := r.(attempts := r.attempts - {s});
      } else {
        assert done * keys == before;
      }
      todo := todo - {s};
    }
    assert done * keys == keys;
  }

  /** Marks the transmissions of acknowledged datagrams confirmed and returns their bytes. */
  method SettleLane(l: Lane, a: Acknowledgement, acked: set<nat>) returns (r: Lane, numbers: set<nat>)
    requires Numbered(l)
    ensures r == Settle(l, a, acked) && numbers == Numbers(l.attempts, Settled(l, a, acked))
  {
    hide Release, Sum, Only, Weight, Numbers, Acknowledgement.Received;
    r, numbers := l, {};
    var todo := l.attempts.Keys;
    ghost var done: set<nat> := {};
    ghost var keys := Settled(l, a, acked);
    NoneRemoved(l);
    NoneCounted(l);
    assert done * keys == {};
    while todo != {}
      invariant todo !! done && todo + done == l.attempts.Keys
      invariant r == Release(l, done * keys).(attempts := r.attempts)
      invariant r.attempts.Keys == l.attempts.Keys
      invariant forall s :: s in l.attempts ==>
        r.attempts[s] == if s in done * keys then l.attempts[s].(released := true, confirmed := true) else l.attempts[s]
      invariant numbers == Numbers(l.attempts, done * keys)
      decreases todo
    {
      var s: nat :| s in todo;
      var sent := l.attempts[s];
      ghost var before := done * keys;
      done := done + {s};
      if sent.carried.Datagram? && (sent.carried.number in acked || a.Received(sent.carried.number))
         && !sent.confirmed {
        assert done * keys == before + {s};
        ReleaseMore(l, before, s);
        NumbersAdd(l.attempts, before, s);
        numbers := numbers + {sent.carried.number};
        if !sent.released {
          r := ReleaseOne(r, sent);
        }
        r := r.(attempts := r.attempts[s := sent.(released := true, confirmed := true)]);
      } else {
        assert done * keys == before;
      }
      todo := todo - {s};
    }
    assert done * keys == keys;
    assert r.attempts == Settle(l, a, acked).attempts;
  }

  lemma {:induction false} SweptIsRemoved(l: Lane, keys: set<nat>, acked: nat)
    ensures Swept(l, keys, acked) == Remove(l, keys).(acked := acked)
  {
  }
}
