/** In-flight conservation: what every step keeps true of a single lane's byte counts. */
module LaneLaws {
  import opened Packets
  import opened TransportState

  /** The transmissions of a lane account for its byte counts. */
  ghost predicate Balanced(l: Lane) {
    && (forall s :: s in l.attempts ==> 1 <= s <= l.counter)
    && l.inflight == Sum(l.attempts, InFlight, l.counter)
    && (forall c :: l.classInflight.Of(c) == Sum(l.attempts, InFlightOf(c), l.counter))
    && l.acked + Sum(l.attempts, Outstanding, l.counter) <= l.sent
  }

  function Term(m: map<nat, Attempt>, w: Share, s: nat): nat {
    if s in m then Weight(m[s], w) else 0
  }

  lemma {:induction false} SumAdds(m: map<nat, Attempt>, m1: map<nat, Attempt>, m2: map<nat, Attempt>, w: Share, n: nat)
    requires forall s :: 1 <= s <= n ==> Term(m, w, s) == Term(m1, w, s) + Term(m2, w, s)
    ensures Sum(m, w, n) == Sum(m1, w, n) + Sum(m2, w, n)
  {
    if n > 0 {
      SumAdds(m, m1, m2, w, n - 1);
      assert Term(m, w, n) == Term(m1, w, n) + Term(m2, w, n);
    }
  }

  lemma {:induction false} SumSame(m: map<nat, Attempt>, m': map<nat, Attempt>, w: Share, n: nat)
    requires forall s :: 1 <= s <= n ==> Term(m, w, s) == Term(m', w, s)
    ensures Sum(m, w, n) == Sum(m', w, n)
  {
    if n > 0 {
      SumSame(m, m', w, n - 1);
      assert Term(m, w, n) == Term(m', w, n);
    }
  }

  lemma {:induction false} SumEmpty(w: Share, n: nat)
    ensures Sum(map[], w, n) == 0
  {
    if n > 0 { SumEmpty(w, n - 1); }
  }

  /** Each class's bytes in flight are part of the lane's, and those are part of what is outstanding. */
  lemma {:induction false} SumsOrdered(m: map<nat, Attempt>, n: nat)
    ensures Sum(m, InFlightOf(Realtime), n) + Sum(m, InFlightOf(Small), n) + Sum(m, InFlightOf(Bulk), n)
      <= Sum(m, InFlight, n)
    ensures Sum(m, InFlight, n) <= Sum(m, Outstanding, n)
  {
    if n > 0 { SumsOrdered(m, n - 1); }
  }

  lemma {:induction false} NewAttempt(m: map<nat, Attempt>, n: nat, a: Attempt, w: Share)
    ensures Sum(m[n + 1 := a], w, n + 1) == Sum(m, w, n) + Weight(a, w)
  {
    assert forall s :: 1 <= s <= n ==> Term(m[n + 1 := a], w, s) == Term(m, w, s);
    SumSame(m[n + 1 := a], m, w, n);
  }

  /** A new transmission is charged to the lane, to its class and to the bytes sent. */
  lemma {:induction false} BeginKeeps(l: Lane, carried: Carried, bytes: nat, now: Time)
    requires Balanced(l)
    ensures Balanced(BeginAttempt(l, carried, bytes, now))
  {
    var a := Attempt(carried, now, bytes, false, false, l.sent + bytes);
    NewAttempt(l.attempts, l.counter, a, InFlight);
    NewAttempt(l.attempts, l.counter, a, Outstanding);
    forall c ensures BeginAttempt(l, carried, bytes, now).classInflight.Of(c)
                     == Sum(l.attempts[l.counter + 1 := a], InFlightOf(c), l.counter + 1)
    {
      NewAttempt(l.attempts, l.counter, a, InFlightOf(c));
    }
  }

  /**
   * Returning the bytes of some transmissions balances whenever those transmissions stop counting as
   * in flight, whether they are removed or marked released, and the others keep their weight.
   */
  lemma {:induction false} ReleaseBalances(l: Lane, keys: set<nat>, m: map<nat, Attempt>)
    requires Balanced(l)
    requires m.Keys <= l.attempts.Keys
    requires forall s, w: Share :: s in l.attempts && s !in keys ==> Term(m, w, s) == Weight(l.attempts[s], w)
    requires forall s, w: Share :: s in keys && s in m ==> (w != Outstanding ==> Weight(m[s], w) == 0)
    ensures var r := Release(l, keys);
      && r.inflight == Sum(m, InFlight, l.counter)
      && forall c :: r.classInflight.Of(c) == Sum(m, InFlightOf(c), l.counter)
  {
    var gone := Only(l.attempts, keys);
    forall w: Share | w != Outstanding
      ensures Sum(l.attempts, w, l.counter) == Sum(m, w, l.counter) + Sum(gone, w, l.counter)
    {
      forall s | 1 <= s <= l.counter ensures Term(l.attempts, w, s) == Term(m, w, s) + Term(gone, w, s) {
      }
      SumAdds(l.attempts, m, gone, w, l.counter);
    }
    var r := Release(l, keys);
    forall c ensures r.classInflight.Of(c) == Sum(m, InFlightOf(c), l.counter) {
      assert r.classInflight.Of(c) == l.classInflight.Of(c) - Sum(gone, InFlightOf(c), l.counter);
    }
  }

  lemma {:induction false} SumRemoved(l: Lane, keys: set<nat>)
    ensures Sum(l.attempts, Outstanding, l.counter)
         == Sum(l.attempts - keys, Outstanding, l.counter) + Sum(Only(l.attempts, keys), Outstanding, l.counter)
  {
    forall s | 1 <= s <= l.counter
      ensures Term(l.attempts, Outstanding, s)
           == Term(l.attempts - keys, Outstanding, s) + Term(Only(l.attempts, keys), Outstanding, s)
    {
    }
    SumAdds(l.attempts, l.attempts - keys, Only(l.attempts, keys), Outstanding, l.counter);
  }

  /** Dropping transmissions keeps the balance, also when part of what is dropped is counted as acknowledged. */
  lemma {:induction false} RemoveKeeps(l: Lane, keys: set<nat>, counted: set<nat>)
    requires Balanced(l) && counted <= keys
    ensures Balanced(Remove(l, keys).(acked := l.acked + Sum(Only(l.attempts, counted), Outstanding, l.counter)))
  {
    ReleaseBalances(l, keys, l.attempts - keys);
    SumRemoved(l, keys);
    var gone := Remove(l.(attempts := Only(l.attempts, keys)), counted);
    SumRemoved(l.(attempts := Only(l.attempts, keys)), counted);
    assert Only(Only(l.attempts, keys), counted) == Only(l.attempts, counted);
  }

  lemma {:induction false} TimeOutKeeps(l: Lane, rto: nat, now: Time)
    requires Balanced(l)
    ensures Balanced(TimeOut(l, rto, now))
  {
    var late, old_ := Overdue(l, rto, now), Overdue(l, FEEDBACK_HORIZON, now);
    var m := TimeOut(l, rto, now).attempts;
    ReleaseBalances(l, late + old_, m);
    SumRemoved(l, old_);
    forall s | 1 <= s <= l.counter ensures Term(m, Outstanding, s) == Term(l.attempts - old_, Outstanding, s) {
    }
    SumSame(m, l.attempts - old_, Outstanding, l.counter);
  }

  lemma {:induction false} SettleKeeps(l: Lane, a: Acknowledgement, acked: set<nat>)
    requires Balanced(l)
    ensures Balanced(Settle(l, a, acked))
  {
    var keys := Settled(l, a, acked);
    var m := Settle(l, a, acked).attempts;
    ReleaseBalances(l, keys, m);
    forall s | 1 <= s <= l.counter ensures Term(m, Outstanding, s) == Term(l.attempts, Outstanding, s) {
    }
    SumSame(m, l.attempts, Outstanding, l.counter);
  }

  lemma {:induction false} ResetKeeps(l: Lane)
    requires Balanced(l)
    ensures Balanced(ResetLane(l))
  {
  }

  lemma {:induction false} NewLaneBalanced(id: PathId, remoteId: PathId, now: Time)
    ensures Balanced(NewLane(id, remoteId, now))
  {
  }
}
