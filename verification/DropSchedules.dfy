/**
 * When a waiting datagram gives way: the real-time backlog rule and the controlled-delay schedule of the bulk queue.
 */
module DropSchedules {
  import opened Packets

  const REALTIME_QUEUE_TARGET: nat := 20 * MILLISECOND
  const REALTIME_QUEUE_INTERVAL: nat := 100 * MILLISECOND
  const CODEL_MIN_TARGET: nat := 10 * MILLISECOND
  const CODEL_MAX_TARGET: nat := 100 * MILLISECOND
  const CODEL_MIN_INTERVAL: nat := 100 * MILLISECOND
  const MAX_BULK_QUEUE_AGE: nat := 250 * MILLISECOND
  const DISCOVERY_QUEUE_AGE: nat := 1000 * MILLISECOND

  // ----- the real-time backlog -----

  /** realtimeLate and realtimeSkipping */
  datatype Backlog = Backlog(late: Option<Time>, skipping: bool)

  const NO_BACKLOG := Backlog(None, false)

  /** stale: the backlog after looking at the head of the queue, and whether the head gives way. */
  function Look(b: Backlog, waited: int, now: Time): (Backlog, bool) {
    if waited <= REALTIME_QUEUE_TARGET then (NO_BACKLOG, false)
    else if b.skipping then (b, true)
    else
      var late := if b.late.None? then now else b.late.value;
      var skipping := now - late >= REALTIME_QUEUE_INTERVAL;
      (Backlog(Some(late), skipping), skipping)
  }

  /** What the sender sees of the real-time queue: nothing waiting, or a head that has waited so long. */
  datatype Sight = Empty | Head(waited: int, at: Time)

  function See(b: Backlog, s: Sight): Backlog {
    match s
    case Empty => NO_BACKLOG
    case Head(waited, at) => Look(b, waited, at).0
  }

  /** The backlog after a run of looks. */
  ghost function After(sights: seq<Sight>): Backlog {
    if sights == [] then NO_BACKLOG else See(After(sights[..|sights| - 1]), sights[|sights| - 1])
  }

  predicate Late(s: Sight) {
    s.Head? && s.waited > REALTIME_QUEUE_TARGET
  }

  /** Every look from j on found the head late. */
  ghost predicate LateFrom(sights: seq<Sight>, j: nat) {
    j < |sights| && forall k :: j <= k < |sights| ==> Late(sights[k])
  }

  ghost predicate InOrder(sights: seq<Sight>) {
    forall i, j :: 0 <= i <= j < |sights| && sights[i].Head? && sights[j].Head? ==> sights[i].at <= sights[j].at
  }

  /** From look j on every head was late, and that has lasted an interval. */
  ghost predicate LateForAnInterval(sights: seq<Sight>, j: nat) {
    LateFrom(sights, j) && sights[|sights| - 1].at - sights[j].at >= REALTIME_QUEUE_INTERVAL
  }

  /** The backlog began at look j, the first of the late ones. */
  ghost predicate Began(sights: seq<Sight>, j: nat) {
    LateFrom(sights, j) && (j > 0 ==> !Late(sights[j - 1]))
  }

  ghost predicate Remembered(sights: seq<Sight>, b: Backlog) {
    && (b.late.None? ==> !b.skipping && (sights == [] || !Late(sights[|sights| - 1])))
    && (b.late.Some? ==> exists j: nat ::
          && Began(sights, j) && b.late.value == sights[j].at
          && (b.skipping <==> sights[|sights| - 1].at - sights[j].at >= REALTIME_QUEUE_INTERVAL))
  }

  lemma {:induction false} RemembersRun(sights: seq<Sight>)
    requires InOrder(sights)
    ensures Remembered(sights, After(sights))
  {
    if sights != [] {
      var front, s := sights[..|sights| - 1], sights[|sights| - 1];
      RemembersRun(front);
      var b := After(front);
      if Late(s) {
        if b.late.None? {
          assert Began(sights, |front|);
        } else {
          var j: nat :| Began(front, j) && b.late.value == front[j].at
            && (b.skipping <==> front[|front| - 1].at - front[j].at >= REALTIME_QUEUE_INTERVAL);
          assert front[|front| - 1] == sights[|front| - 1] && front[j] == sights[j];
          assert Began(sights, j);
        }
      }
    }
  }

  /**
   * A head gives way exactly when every look since some earlier one, an interval or more ago, found a late
   * head: one empty queue or one timely head in between starts the count again.
   */
  lemma {:induction false} StaleIff(sights: seq<Sight>, waited: int, now: Time)
    requires InOrder(sights + [Head(waited, now)])
    ensures Look(After(sights), waited, now).1 <==> exists j: nat :: LateForAnInterval(sights + [Head(waited, now)], j)
  {
    var all := sights + [Head(waited, now)];
    assert all[..|all| - 1] == sights;
    assert After(all) == Look(After(sights), waited, now).0;
    RemembersRun(all);
    var b := After(all);
    if b.late.Some? {
      var j: nat :| Began(all, j) && b.late.value == all[j].at
        && (b.skipping <==> all[|all| - 1].at - all[j].at >= REALTIME_QUEUE_INTERVAL);
      forall i: nat | LateForAnInterval(all, i) ensures LateForAnInterval(all, j) {
        assert j <= i;
      }
      assert b.skipping <==> LateForAnInterval(all, j);
    }
  }

  // ----- the controlled-delay schedule -----

  predicate IsRoot(r: nat, n: nat) {
    r * r <= n < (r + 1) * (r + 1)
  }

  /** The integer square root, two bits at a time. */
  function Root(n: nat): (r: nat)
    ensures IsRoot(r, n)
  {
    if n == 0 then 0 else
      var half := Root(n / 4);
      Doubled(half, n);
      Refined(half, n)
  }

  function Refined(half: nat, n: nat): nat {
    if (2 * half + 1) * (2 * half + 1) <= n then 2 * half + 1 else 2 * half
  }

  lemma {:induction false} Doubled(h: nat, n: nat)
    requires IsRoot(h, n / 4)
    ensures IsRoot(Refined(h, n), n)
  {
    assert (2 * h) * (2 * h) == 4 * (h * h) && (2 * h + 2) * (2 * h + 2) == 4 * ((h + 1) * (h + 1));
    assert 4 * (n / 4) <= n < 4 * (n / 4) + 4;
  }

  /** controlLaw: the interval over the square root of the count, rounded down. */
  function Spacing(interval: nat, count: nat): (d: nat)
    requires count > 0
    ensures d * d * count <= interval * interval < (d + 1) * (d + 1) * count
  {
    var d := Root(interval * interval / count);
    Quotient(interval * interval, count, d);
    d
  }

  lemma {:induction false} Quotient(n: nat, count: nat, d: nat)
    requires count > 0 && IsRoot(d, n / count)
    ensures d * d * count <= n < (d + 1) * (d + 1) * count
  {
    var q := n / count;
    assert q * count <= n < (q + 1) * count;
    Scaled(d * d, q, count);
    Scaled(q + 1, (d + 1) * (d + 1), count);
  }

  lemma {:induction false} Scaled(a: nat, b: nat, c: nat)
    requires a <= b
    ensures a * c <= b * c
  {
  }

  /** target and interval are those of the last datagram taken. */
  datatype Codel = Codel(
    target: nat, interval: nat, firstAbove: Option<Time>, dropNext: Time, count: nat, lastCount: nat, dropping: bool)

  const CODEL_START := Codel(0, 0, None, 0, 0, 0, false)

  /** One datagram taken from the bulk queue: when, how long it waited, how many stay, and the slowest round trip. */
  datatype Ask = Ask(at: Time, sojourn: int, remaining: nat, roundTrip: nat)

  function Target(roundTrip: nat): nat {
    if roundTrip < CODEL_MIN_TARGET then CODEL_MIN_TARGET
    else if roundTrip > CODEL_MAX_TARGET then CODEL_MAX_TARGET else roundTrip
  }

  function Interval(roundTrip: nat): nat {
    var twice := 2 * (roundTrip + Target(roundTrip));
    if twice < CODEL_MIN_INTERVAL then CODEL_MIN_INTERVAL else twice
  }

  /** The datagram waited for the target and is not the last. */
  predicate Above(a: Ask) {
    a.sojourn >= Target(a.roundTrip) && a.remaining > 0
  }

  /** okToDrop */
  function Watch(c: Codel, a: Ask): (Codel, bool) {
    if !Above(a) then (c.(firstAbove := None), false)
    else if c.firstAbove.None? then (c.(firstAbove := Some(a.at + Interval(a.roundTrip))), false)
    else (c, a.at >= c.firstAbove.value)
  }

  /** drop: the schedule after the datagram, and whether it is discarded. */
  function Drop(c: Codel, a: Ask): (Codel, bool) {
    var interval := Interval(a.roundTrip);
    var (w, ok) := Watch(c.(target := Target(a.roundTrip), interval := interval), a);
    if w.dropping then
      if !ok then (w.(dropping := false), false)
      else if a.at < w.dropNext then (w, false)
      else (w.(count := w.count + 1, dropNext := w.dropNext + Spacing(interval, w.count + 1)), true)
    else if !ok then (w, false)
    else
      var delta := w.count - w.lastCount;
      var count: nat := if delta > 1 && a.at - w.dropNext < 16 * interval then delta else 1;
      (w.(dropping := true, count := count, lastCount := count, dropNext := a.at + Spacing(interval, count)), true)
  }

  /** The schedule after a run of datagrams. */
  ghost function Scheduled(asks: seq<Ask>): Codel {
    if asks == [] then CODEL_START else Drop(Scheduled(asks[..|asks| - 1]), asks[|asks| - 1]).0
  }

  /** The queue stood above its target from datagram j on. */
  ghost predicate AboveFrom(asks: seq<Ask>, j: nat) {
    j < |asks| && forall k :: j <= k < |asks| ==> Above(asks[k])
  }

  /** The standing queue began with datagram j. */
  ghost predicate Stands(asks: seq<Ask>, j: nat) {
    AboveFrom(asks, j) && (j > 0 ==> !Above(asks[j - 1]))
  }

  lemma {:induction false} DropWatches(c: Codel, a: Ask)
    ensures Drop(c, a).0.firstAbove == Watch(c, a).0.firstAbove && (Drop(c, a).1 ==> Watch(c, a).1)
  {
    hide Spacing, Interval, Above;
  }

  lemma {:induction false} StandsOn(asks: seq<Ask>, a: Ask, j: nat)
    requires Stands(asks, j) && Above(a)
    ensures Stands(asks + [a], j)
  {
    hide Above;
  }

  /** The schedule waits an interval from where the standing queue began. */
  ghost predicate Waits(asks: seq<Ask>, until: Time) {
    exists j: nat :: j < |asks| && Stands(asks, j) && until == asks[j].at + Interval(asks[j].roundTrip)
  }

  lemma {:induction false} Watched(asks: seq<Ask>)
    ensures var first := Scheduled(asks).firstAbove;
      if first.None? then asks == [] || !Above(asks[|asks| - 1]) else Waits(asks, first.value)
  {
    hide Drop, Interval, Above, Stands;
    if asks != [] {
      var front, a := asks[..|asks| - 1], asks[|asks| - 1];
      assert asks == front + [a];
      Watched(front);
      var c := Scheduled(front);
      DropWatches(c, a);
      if Above(a) {
        if c.firstAbove.None? {
          StandsAlone(front, a);
        } else {
          var j: nat :| j < |front| && Stands(front, j)
            && c.firstAbove.value == front[j].at + Interval(front[j].roundTrip);
          StandsOn(front, a, j);
          assert Stands(asks, j) && front[j] == asks[j];
        }
      }
    }
  }

  lemma {:induction false} StandsAlone(asks: seq<Ask>, a: Ask)
    requires Above(a) && (asks == [] || !Above(asks[|asks| - 1]))
    ensures Stands(asks + [a], |asks|)
  {
  }

  /** The datagrams discarded since the schedule last began to drop; none while it does not. */
  ghost function Episode(asks: seq<Ask>): seq<Ask> {
    if asks == [] then [] else
      var front, a := asks[..|asks| - 1], asks[|asks| - 1];
      var c := Scheduled(front);
      var (r, dropped) := Drop(c, a);
      if dropped then (if c.dropping then Episode(front) + [a] else [a])
      else if r.dropping then Episode(front) else []
  }

  /** The spacings the discarded datagrams are owed: the interval of each over the square root of a count that grows. */
  ghost function Owed(first: nat, episode: seq<Ask>): nat
    requires first > 0
  {
    if episode == [] then 0 else
      Owed(first, episode[..|episode| - 1])
      + Spacing(Interval(episode[|episode| - 1].roundTrip), first + |episode| - 1)
  }

  /** No datagram of the episode was discarded before the spacings of those ahead of it had passed. */
  ghost predicate OnSchedule(first: nat, episode: seq<Ask>) {
    first > 0 && forall m :: 0 < m < |episode| ==> episode[m].at >= episode[0].at + Owed(first, episode[..m])
  }

  /** A dropping schedule counts its episode and waits for all the spacings; another has no episode. */
  ghost predicate Keeps(c: Codel, e: seq<Ask>) {
    if c.dropping then
      && e != [] && OnSchedule(c.lastCount, e) && c.count == c.lastCount + |e| - 1
      && c.dropNext == e[0].at + Owed(c.lastCount, e)
    else e == []
  }

  /**
   * The control law over a whole run: the discarded datagrams of an episode are spaced by interval over the
   * square root of the count, from the first of them, and the next is due when all the spacings have passed.
   */
  lemma {:induction false} EpisodeSpaced(asks: seq<Ask>)
    ensures Keeps(Scheduled(asks), Episode(asks))
  {
    hide Drop, Keeps;
    if asks == [] {
      KeepsNothing();
    } else {
      EpisodeSpaced(asks[..|asks| - 1]);
      DropKeeps(Scheduled(asks[..|asks| - 1]), Episode(asks[..|asks| - 1]), asks[|asks| - 1]);
    }
  }

  lemma {:induction false} KeepsNothing()
    ensures Keeps(CODEL_START, [])
  {
  }

  lemma {:induction false} DropKeeps(c: Codel, e: seq<Ask>, a: Ask)
    requires Keeps(c, e)
    ensures var (r, dropped) := Drop(c, a);
      Keeps(r, if dropped then (if c.dropping then e + [a] else [a]) else if r.dropping then e else [])
  {
    hide Spacing, Interval, Above, OnSchedule, Owed;
    if c.dropping {
      if a.at >= c.dropNext { Extend(c.lastCount, e, a); }
    } else {
      var r := Drop(c, a).0;
      if r.dropping { Begin(r.lastCount, a); }
    }
  }

  lemma {:induction false} Begin(first: nat, a: Ask)
    requires first > 0
    ensures OnSchedule(first, [a]) && Owed(first, [a]) == Spacing(Interval(a.roundTrip), first)
  {
    assert [a][..0] == [];
  }

  lemma {:induction false} Extend(first: nat, e: seq<Ask>, a: Ask)
    requires e != [] && OnSchedule(first, e) && a.at >= e[0].at + Owed(first, e)
    ensures OnSchedule(first, e + [a])
    ensures Owed(first, e + [a]) == Owed(first, e) + Spacing(Interval(a.roundTrip), first + |e|)
  {
    hide Spacing;
    var longer := e + [a];
    assert longer[..|longer| - 1] == e;
    forall m | 0 < m < |longer| ensures longer[m].at >= longer[0].at + Owed(first, longer[..m]) {
      if m < |e| { assert longer[..m] == e[..m]; }
    }
  }

  /** By now the queue has stood above its target for a whole interval. */
  ghost predicate StoodForAnInterval(asks: seq<Ask>, a: Ask) {
    exists j: nat :: j < |asks| && Stands(asks + [a], j) && a.at >= asks[j].at + Interval(asks[j].roundTrip)
  }

  lemma {:induction false} WatchIff(asks: seq<Ask>, a: Ask)
    ensures Watch(Scheduled(asks), a).1 <==> StoodForAnInterval(asks, a)
  {
    hide Drop, Interval, Above, Stands;
    Watched(asks);
    forall i: nat | i < |asks| && Stands(asks + [a], i)
      ensures Stands(asks, i) && Above(a) && Above(asks[|asks| - 1])
    {
      StoodBefore(asks, a, i);
    }
    if Above(a) && Scheduled(asks).firstAbove.Some? {
      var j: nat :| j < |asks| && Stands(asks, j)
        && Scheduled(asks).firstAbove.value == asks[j].at + Interval(asks[j].roundTrip);
      StandsOn(asks, a, j);
      forall i: nat | i < |asks| && Stands(asks, i) ensures i == j { OneBeginning(asks, i, j); }
    }
  }

  lemma {:induction false} StoodBefore(asks: seq<Ask>, a: Ask, j: nat)
    requires j < |asks| && Stands(asks + [a], j)
    ensures Stands(asks, j) && Above(a) && Above(asks[|asks| - 1])
  {
    hide Above;
    assert (asks + [a])[|asks|] == a;
    assert forall k :: 0 <= k < |asks| ==> asks[k] == (asks + [a])[k];
  }

  lemma {:induction false} OneBeginning(asks: seq<Ask>, i: nat, j: nat)
    requires Stands(asks, i) && Stands(asks, j)
    ensures i == j
  {
    hide Above;
  }

  /**
   * A datagram is discarded exactly when the queue, which keeps another datagram, has stood above its target
   * for a whole interval and, in an episode, the spacings of the datagrams discarded before it have passed.
   */
  lemma {:induction false} DropsIff(asks: seq<Ask>, a: Ask)
    ensures var c, e := Scheduled(asks), Episode(asks);
      && (e != [] ==> OnSchedule(c.lastCount, e))
      && (Drop(c, a).1 <==> StoodForAnInterval(asks, a) && (e == [] || a.at >= e[0].at + Owed(c.lastCount, e)))
  {
    hide Watch, StoodForAnInterval, Owed, Spacing, Interval, Target;
    WatchIff(asks, a);
    EpisodeSpaced(asks);
    WatchKeeps(Scheduled(asks), a);
  }

  lemma {:induction false} WatchKeeps(c: Codel, a: Ask)
    ensures var (w, ok) := Watch(c.(target := Target(a.roundTrip), interval := Interval(a.roundTrip)), a);
      w.dropping == c.dropping && w.dropNext == c.dropNext && ok == Watch(c, a).1
  {
    hide Interval, Above, Target;
  }

  // ----- how long a bulk datagram may wait -----

  /**
   * bulkQueueAge: between a quarter of a second and one second, and long enough for the schedule to act on
   * the queue, a target and an interval, unless that is more than a second.
   */
  function QueueAge(c: Codel, discovering: bool): (age: nat)
    ensures MAX_BULK_QUEUE_AGE <= age <= DISCOVERY_QUEUE_AGE
    ensures age < DISCOVERY_QUEUE_AGE ==> c.target + c.interval <= age
  {
    if discovering || c.target + c.interval > DISCOVERY_QUEUE_AGE then DISCOVERY_QUEUE_AGE
    else if c.target + c.interval > MAX_BULK_QUEUE_AGE then c.target + c.interval else MAX_BULK_QUEUE_AGE
  }
}
