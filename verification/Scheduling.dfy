/** The pacing clocks of a lane, the choice of a lane for a datagram, and what both admit over a run. */
module Scheduling {
  import opened Basics
  import opened Packets
  import opened Reservation

  const PACING_SLACK: real := 0.002
  const PRIORITY_LEAD: real := 0.005

  // ----- the pacing clock -----

  /** A send, ping or acknowledgement charged to the clock: size / rate seconds of service. */
  datatype Charge = Charge(at: real, bytes: real, rate: real) {
    ghost predicate Valid() { bytes >= 0.0 && rate > 0.0 }

    function Service(): real
      requires rate > 0.0
    {
      bytes / rate
    }
  }

  ghost predicate AllValid(charges: seq<Charge>) {
    forall i :: 0 <= i < |charges| ==> charges[i].Valid()
  }

  function Pace(next: real, c: Charge): real
    requires c.rate > 0.0
  {
    Max(next, c.at - PACING_SLACK) + c.Service()
  }

  /** The clock after a run of charges. */
  ghost function Clock(start: real, charges: seq<Charge>): real
    requires AllValid(charges)
  {
    if charges == [] then start else Pace(Clock(start, charges[..|charges| - 1]), charges[|charges| - 1])
  }

  ghost function Work(charges: seq<Charge>): real
    requires AllValid(charges)
  {
    if charges == [] then 0.0 else Work(charges[..|charges| - 1]) + charges[|charges| - 1].Service()
  }

  ghost function Bytes(charges: seq<Charge>): real {
    if charges == [] then 0.0 else Bytes(charges[..|charges| - 1]) + charges[|charges| - 1].bytes
  }

  /** The work charged since charge k is within the time passed since then plus the slack and the lead. */
  ghost predicate WindowHolds(charges: seq<Charge>, k: nat, now: real, lead: real)
    requires AllValid(charges) && k < |charges|
  {
    Work(charges[k..]) <= now - charges[k].at + PACING_SLACK + lead
  }

  /**
   * What the clock enforces, exactly. A sender may go on at a time, with a lead, if and only if the work
   * charged since every earlier charge, and since the start, fits in the time passed plus the slack and
   * the lead, whatever the rates were.
   */
  lemma {:induction false} AdmittedIffEveryWindowHolds(start: real, charges: seq<Charge>, now: real, lead: real)
    requires AllValid(charges)
    ensures Clock(start, charges) <= now + lead <==>
            && start + Work(charges) <= now + lead
            && forall k :: 0 <= k < |charges| ==> WindowHolds(charges, k, now, lead)
  {
    if charges != [] {
      var n := |charges| - 1;
      var before, c := charges[..n], charges[n];
      var less := lead - c.Service();
      AdmittedIffEveryWindowHolds(start, before, now, less);
      forall k | 0 <= k < n
        ensures WindowHolds(charges, k, now, lead) <==> WindowHolds(before, k, now, less)
      {
        assert charges[k..][..n - k] == before[k..];
      }
      assert charges[n..][..0] == [] && Work(charges[n..]) == c.Service();
      assert WindowHolds(charges, n, now, lead) <==> c.at - PACING_SLACK + c.Service() <= now + lead;
    }
  }

  lemma {:induction false} BytesWithinWork(charges: seq<Charge>, rate: real)
    requires AllValid(charges) && forall i :: 0 <= i < |charges| ==> charges[i].rate <= rate
    ensures Bytes(charges) <= rate * Work(charges)
  {
    if charges != [] {
      var n := |charges| - 1;
      BytesWithinWork(charges[..n], rate);
      ServiceTimesRate(charges[n], rate);
    }
  }

  lemma {:induction false} ServiceTimesRate(c: Charge, rate: real)
    requires c.Valid() && c.rate <= rate
    ensures c.bytes <= rate * c.Service()
  {
    assert c.bytes == c.rate * c.Service();
    assert (rate - c.rate) * c.Service() >= 0.0;
  }

  /** A paced lane: from any charge to the next admission it carries at most its rate times the window. */
  lemma {:induction false} PacedBytes(start: real, charges: seq<Charge>, k: nat, now: real, lead: real, rate: real)
    requires AllValid(charges) && k < |charges| && Clock(start, charges) <= now + lead
    requires forall i :: k <= i < |charges| ==> charges[i].rate <= rate
    ensures Bytes(charges[k..]) <= rate * (now - charges[k].at + PACING_SLACK + lead)
  {
    AdmittedIffEveryWindowHolds(start, charges, now, lead);
    assert WindowHolds(charges, k, now, lead);
    BytesWithinWork(charges[k..], rate);
    Monotone(rate, Work(charges[k..]), now - charges[k].at + PACING_SLACK + lead, charges[k]);
  }

  lemma {:induction false} Monotone(rate: real, a: real, b: real, c: Charge)
    requires a <= b && c.Valid() && c.rate <= rate
    ensures rate * a <= rate * b
  {
    assert rate * (b - a) >= 0.0;
  }

  // ----- the choice of a lane -----

  /** What the choice reads of a lane; the reserved shares and allowed rates are those of the reservation. */
  datatype View = View(
    id: PathId, state: Liveness, up: bool, drainUntil: real, flushUntil: real,
    window: nat, inflight: nat, inflightRealtime: nat, inflightSmall: nat, inflightBulk: nat,
    rate: real, reservedRealtime: real, copies: real, allowedSmall: real, allowedBulk: real, capacityFound: bool,
    nextSend: real, nextRealtime: real, nextSmall: real, nextBulk: real, latency: real)
  {
    ghost predicate Valid() {
      rate > 0.0 && allowedSmall >= 0.0 && allowedBulk >= 0.0
    }

    function ClassInflight(c: Class): nat {
      match c case Realtime => inflightRealtime case Small => inflightSmall case Bulk => inflightBulk
    }

    function ClassNext(c: Class): real {
      match c case Realtime => nextRealtime case Small => nextSmall case Bulk => nextBulk
    }

    function ClassAllowed(c: Class): real {
      if c == Small then allowedSmall else allowedBulk
    }

    /** The share of the window that the rate allowed to a class makes up. */
    function Share(c: Class): real
      requires Valid()
    {
      window as real * ClassAllowed(c) / rate
    }

    /** The share of the window a lower class may fill, and always one datagram. */
    function ClassWindow(c: Class, size: nat): nat
      requires Valid()
    {
      if c == Bulk && reservedRealtime > 0.0 && (capacityFound || reservedRealtime + copies > allowedBulk)
         && size as real / rate > TARGET_QUEUE_SECONDS
      then size
      else
        var share := Share(c).Floor;
        if share > size then share else size
    }
  }

  datatype Request = Request(now: real, class_: Class, size: nat, exclude: PathId, avoid: bool, contended: bool,
    leased: nat)

  function Lead(r: Request): real {
    if r.class_ == Bulk && !r.contended then 0.0 else PRIORITY_LEAD
  }

  /** What a real-time datagram may borrow beyond the lead. */
  function Borrow(v: View, r: Request): real
    requires v.rate > 0.0
  {
    if r.class_ != Realtime then 0.0
    else if r.leased == 1 || v.inflightBulk > 0 || v.inflightSmall > 0 || (r.avoid && v.copies > 0.0)
      then FULL_DATAGRAM_WIRE_BYTES / v.rate
    else r.size as real / v.rate
  }

  /** The share of the window reserved for real-time datagrams and their copies. */
  function RealtimeShare(v: View): real
    requires v.rate > 0.0
  {
    v.window as real * (v.reservedRealtime + v.copies) / v.rate
  }

  predicate FitsWindow(v: View, r: Request)
    requires v.Valid()
  {
    if r.class_ == Realtime then
      v.inflight <= v.window || v.inflightRealtime as real <= RealtimeShare(v)
    else
      && v.ClassAllowed(r.class_) != 0.0
      && v.inflight + r.size <= (if r.size > v.window then r.size else v.window)
      && v.ClassInflight(r.class_) + r.size <= v.ClassWindow(r.class_, r.size)
  }

  /** The lane may send the datagram now. */
  predicate Admissible(v: View, r: Request)
    requires v.Valid()
  {
    && MayCarry(v.state, r.class_)
    && (r.class_ == Bulk ==> v.drainUntil <= r.now)
    && (r.avoid ==> v.id != r.exclude)
    && (r.class_ != Realtime ==> v.flushUntil <= r.now)
    && FitsWindow(v, r)
    && v.ClassNext(r.class_) <= r.now + Lead(r)
    && v.nextSend <= r.now + Lead(r) + Borrow(v, r)
  }

  function Arrival(v: View, now: real): real {
    Max(0.0, v.nextSend - now) + v.latency / 2.0
  }

  function Leased(paths: seq<View>): nat {
    if paths == [] then 0 else Leased(paths[..|paths| - 1]) + if paths[|paths| - 1].up then 1 else 0
  }

  /** The request as the choice completes it: a real-time datagram learns how many lanes are up. */
  function Complete(paths: seq<View>, r: Request): Request {
    r.(leased := if r.class_ == Realtime then Leased(paths) else 0)
  }

  /** chooseLane: the first of the lanes on which the datagram would arrive soonest, of those that may send it. */
  method ChooseLane(paths: seq<View>, request: Request) returns (best: Option<nat>)
    requires forall k :: 0 <= k < |paths| ==> paths[k].Valid()
    ensures best.None? <==> forall k :: 0 <= k < |paths| ==> !Admissible(paths[k], Complete(paths, request))
    ensures best.Some? ==> best.value < |paths| && Admissible(paths[best.value], Complete(paths, request))
    ensures best.Some? ==> forall k :: 0 <= k < |paths| && Admissible(paths[k], Complete(paths, request)) ==>
      && Arrival(paths[best.value], request.now) <= Arrival(paths[k], request.now)
      && (k < best.value ==> Arrival(paths[best.value], request.now) < Arrival(paths[k], request.now))
    ensures best.Some? ==> forall k :: 0 <= k < |paths| && Admissible(paths[k], Complete(paths, request)) ==>
      var sent, could := Max(request.now, paths[best.value].nextSend), Max(request.now, paths[k].nextSend);
      sent + paths[best.value].latency / 2.0 <= could + paths[k].latency / 2.0
  {
    hide FitsWindow, Borrow, Arrival, Leased;
    var leased := 0;
    if request.class_ == Realtime {
      leased := CountLeased(paths);
    }
    var r := request.(leased := leased);
    best := None;
    for i := 0 to |paths|
      invariant best.None? <==> forall k :: 0 <= k < i ==> !Admissible(paths[k], r)
      invariant best.Some? ==> best.value < i && Admissible(paths[best.value], r)
      invariant best.Some? ==> forall k :: 0 <= k < i && Admissible(paths[k], r) ==>
        && Arrival(paths[best.value], r.now) <= Arrival(paths[k], r.now)
        && (k < best.value ==> Arrival(paths[best.value], r.now) < Arrival(paths[k], r.now))
    {
      var p := paths[i];
      if !MayCarry(p.state, r.class_) || (r.now < p.drainUntil && r.class_ == Bulk) || (r.avoid && p.id == r.exclude) {
        continue;
      }
      if r.now < p.flushUntil && r.class_ != Realtime {
        continue;
      }
      if !FitsWindow(p, r) || p.ClassNext(r.class_) > r.now + Lead(r) || p.nextSend > r.now + Lead(r) + Borrow(p, r) {
        continue;
      }
      if best.None? || Arrival(p, r.now) < Arrival(paths[best.value], r.now) {
        best := Some(i);
      }
    }
    ArrivesAt(paths, request.now);
  }

  lemma {:induction false} ArrivesAt(paths: seq<View>, now: real)
    ensures forall k :: 0 <= k < |paths| ==>
      Arrival(paths[k], now) == Max(now, paths[k].nextSend) + paths[k].latency / 2.0 - now
  {
  }

  method CountLeased(paths: seq<View>) returns (n: nat)
    ensures n == Leased(paths)
  {
    n := 0;
    for i := 0 to |paths|
      invariant n == Leased(paths[..i])
    {
      assert paths[..i + 1][..i] == paths[..i];
      if paths[i].up {
        n := n + 1;
      }
    }
    assert paths[..|paths|] == paths;
  }

  /** A request learns how many lanes are up only if it is for a real-time datagram, and of one exactly if one is. */
  lemma {:induction false} OneLeasedIff(paths: seq<View>, r: Request)
    ensures Complete(paths, r) == r.(leased := Complete(paths, r).leased)
    ensures Complete(paths, r).leased == 1 <==> r.class_ == Realtime && exists k :: OnlyUp(paths, k)
  {
    OneUpIff(paths);
  }

  ghost predicate OnlyUp(paths: seq<View>, k: int) {
    0 <= k < |paths| && paths[k].up && forall j :: 0 <= j < |paths| && j != k ==> !paths[j].up
  }

  lemma {:induction false} OneUpIff(paths: seq<View>)
    ensures Leased(paths) == 0 <==> forall j :: 0 <= j < |paths| ==> !paths[j].up
    ensures Leased(paths) == 1 <==> exists k :: OnlyUp(paths, k)
  {
    if paths != [] {
      var n := |paths| - 1;
      var rest := paths[..n];
      OneUpIff(rest);
      if k :| OnlyUp(rest, k) { assert !paths[n].up ==> OnlyUp(paths, k); }
      if k :| OnlyUp(paths, k) { assert k < n ==> OnlyUp(rest, k); }
      if Leased(rest) == 0 && paths[n].up { assert OnlyUp(paths, n); }
    }
  }

  lemma {:induction false} AtMostQuotient(a: real, b: real, rate: real)
    requires rate > 0.0
    ensures a <= b / rate <==> a * rate <= b
  {
    var q := b / rate;
    assert q * rate == b;
    assert a <= q ==> (q - a) * rate >= 0.0;
    assert a > q ==> (a - q) * rate > 0.0;
  }

  /**
   * When a lane may send a real-time datagram: it is live or suspect and not the one to avoid, its window is not
   * full or real-time is within its reserved share, the class is due, and the lane is due but for 5 ms and the
   * time of the datagram, or of a full one where a lower class may be in its way.
   */
  lemma {:induction false} RealtimeAdmittedIff(v: View, r: Request)
    requires v.Valid() && r.class_ == Realtime
    ensures Admissible(v, r) <==>
      && (v.state == Live || v.state == Suspect) && (r.avoid ==> v.id != r.exclude)
      && (v.inflight <= v.window
          || v.inflightRealtime as real * v.rate <= v.window as real * (v.reservedRealtime + v.copies))
      && v.nextRealtime <= r.now + 0.005
      && (v.nextSend - r.now - 0.005) * v.rate <=
         if r.leased == 1 || v.inflightBulk > 0 || v.inflightSmall > 0 || (r.avoid && v.copies > 0.0) then 1500.0
         else r.size as real
  {
    AtMostQuotient(v.inflightRealtime as real, v.window as real * (v.reservedRealtime + v.copies), v.rate);
    AtMostQuotient(v.nextSend - r.now - 0.005, 1500.0, v.rate);
    AtMostQuotient(v.nextSend - r.now - 0.005, r.size as real, v.rate);
  }

  lemma {:induction false} WithinFloor(n: int, x: real)
    ensures n <= x.Floor <==> n as real <= x
  {
  }

  lemma {:induction false} WithinShare(v: View, c: Class, n: nat)
    requires v.Valid()
    ensures n <= v.Share(c).Floor <==> n as real * v.rate <= v.window as real * v.ClassAllowed(c)
  {
    AtMostQuotient(n as real, v.window as real * v.ClassAllowed(c), v.rate);
    WithinFloor(n, v.Share(c));
  }

  lemma {:induction false} WithinClassWindow(v: View, c: Class, size: nat, inflight: nat)
    requires v.Valid()
    ensures
      var alone := c == Bulk && v.reservedRealtime > 0.0
                   && (v.capacityFound || v.reservedRealtime + v.copies > v.allowedBulk)
                   && size as real > 0.01 * v.rate;
      inflight + size <= v.ClassWindow(c, size) <==>
        || inflight == 0
        || (!alone && (inflight + size) as real * v.rate <= v.window as real * v.ClassAllowed(c))
  {
    hide View.Share, View.ClassAllowed;
    WithinShare(v, c, inflight + size);
    AboveQuotient(0.01, size as real, v.rate);
  }

  lemma {:induction false} AboveQuotient(a: real, b: real, rate: real)
    requires rate > 0.0
    ensures b / rate > a <==> b > a * rate
  {
    var q := b / rate;
    assert q * rate == b;
    assert a < q ==> (q - a) * rate > 0.0;
    assert a >= q ==> (a - q) * rate >= 0.0;
  }

  lemma {:induction false} NotPositive(x: real, rate: real)
    requires x <= 0.0 && rate > 0.0
    ensures x * rate <= 0.0
  {
  }

  /**
   * When a lane may send a datagram of a lower class: it is live, or suspect and the datagram small, not to be
   * avoided, drained or flushed; the class is allowed a rate; the datagram fits the window, and with the rest of
   * its class the share of that rate, or is alone; the lane and the class are due, but for 5 ms if contended. On a
   * lane too slow for bulk beside real-time, bulk goes alone.
   */
  lemma {:induction false} LowerAdmittedIff(v: View, r: Request)
    requires v.Valid() && r.class_ != Realtime
    ensures
      var c := r.class_;
      var lead := if c == Small || r.contended then 0.005 else 0.0;
      var alone := c == Bulk && v.reservedRealtime > 0.0
                   && (v.capacityFound || v.reservedRealtime + v.copies > v.allowedBulk)
                   && r.size as real > 0.01 * v.rate;
      Admissible(v, r) <==>
        && (v.state == Live || (c == Small && v.state == Suspect)) && (r.avoid ==> v.id != r.exclude)
        && v.flushUntil <= r.now && (c == Bulk ==> v.drainUntil <= r.now) && v.ClassAllowed(c) > 0.0
        && (v.inflight == 0 || v.inflight + r.size <= v.window)
        && (|| v.ClassInflight(c) == 0
            || (!alone && (v.ClassInflight(c) + r.size) as real * v.rate <= v.window as real * v.ClassAllowed(c)))
        && v.ClassNext(c) <= r.now + lead && v.nextSend <= r.now + lead
  {
    WithinClassWindow(v, r.class_, r.size, v.ClassInflight(r.class_));
  }

  /** Where a datagram of a lower class may go, a real-time one may, once its own class is due. */
  lemma {:induction false} RealtimeGoesFirst(v: View, lower: Request, r: Request)
    requires v.Valid() && lower.class_ != Realtime && Admissible(v, lower)
    requires r.class_ == Realtime && r.now == lower.now && (r.avoid ==> v.id != r.exclude)
    requires v.nextRealtime <= r.now + PRIORITY_LEAD
    ensures Admissible(v, r)
  {
    LowerAdmittedIff(v, lower);
    RealtimeAdmittedIff(v, r);
    NotPositive(v.nextSend - r.now - 0.005, v.rate);
  }

  /** An idle lane that is live and due takes a datagram of any size, of any class that is allowed a rate. */
  lemma {:induction false} IdleLaneTakesAny(v: View, r: Request)
    requires v.Valid() && v.state == Live && (r.avoid ==> v.id != r.exclude)
    requires v.inflight == v.inflightRealtime == v.inflightSmall == v.inflightBulk == 0
    requires v.drainUntil <= r.now && v.flushUntil <= r.now && v.nextSend <= r.now && v.ClassNext(r.class_) <= r.now
    requires r.class_ != Realtime ==> v.ClassAllowed(r.class_) > 0.0
    ensures Admissible(v, r)
  {
    if r.class_ == Realtime {
      RealtimeAdmittedIff(v, r);
      NotPositive(v.nextSend - r.now - 0.005, v.rate);
    } else {
      LowerAdmittedIff(v, r);
    }
  }

  /**
   * What a choice says of the lane's past: on the lane's clock, and on that of the class, the work charged
   * since any earlier charge fits the time passed plus 2 ms plus the lead the datagram was allowed.
   */
  lemma {:induction false} ChosenIsPaced(
    v: View, r: Request, start: real, charges: seq<Charge>, k: nat, classStart: real, own: seq<Charge>, j: nat)
    requires v.Valid() && Admissible(v, r) && AllValid(charges) && AllValid(own) && k < |charges| && j < |own|
    requires v.nextSend == Clock(start, charges) && v.ClassNext(r.class_) == Clock(classStart, own)
    ensures Work(charges[k..]) <= r.now - charges[k].at + PACING_SLACK + Lead(r) + Borrow(v, r)
    ensures Work(own[j..]) <= r.now - own[j].at + PACING_SLACK + Lead(r)
  {
    hide FitsWindow, Borrow, Clock, Work;
    AdmittedIffEveryWindowHolds(start, charges, r.now, Lead(r) + Borrow(v, r));
    AdmittedIffEveryWindowHolds(classStart, own, r.now, Lead(r));
    assert WindowHolds(charges, k, r.now, Lead(r) + Borrow(v, r)) && WindowHolds(own, j, r.now, Lead(r));
  }

  // ----- bytes in flight over a run -----

  /** The bytes in flight on a lane by class, and those of pings. */
  datatype InFlight = InFlight(realtime: nat, small: nat, bulk: nat, pings: nat)

  /**
   * A lane's bytes change by a send, a ping, or the release of bytes that were confirmed or timed out.
   * A retry is admitted as bulk and charged to its own class.
   */
  datatype Event =
    | Send(view: View, request: Request, charged: Class)
    | Ping(bytes: nat)
    | Release(realtime: nat, small: nat, bulk: nat, pings: nat)

  ghost predicate Possible(b: InFlight, e: Event, window: nat, size: nat) {
    match e
    case Send(v, r, c) =>
      && v.Valid() && v.reservedRealtime + v.copies <= v.rate
      && Admissible(v, r) && (c == r.class_ || r.class_ == Bulk)
      && v.inflight == b.realtime + b.small + b.bulk + b.pings
      && v.inflightRealtime == b.realtime && v.inflightSmall == b.small && v.inflightBulk == b.bulk
      && v.window <= window && r.size <= size
    case Ping(_) => true
    case Release(x, y, z, w) => x <= b.realtime && y <= b.small && z <= b.bulk && w <= b.pings
  }

  ghost function After(b: InFlight, e: Event, window: nat, size: nat): InFlight
    requires Possible(b, e, window, size)
  {
    match e
    case Send(_, r, Realtime) => b.(realtime := b.realtime + r.size)
    case Send(_, r, Small) => b.(small := b.small + r.size)
    case Send(_, r, Bulk) => b.(bulk := b.bulk + r.size)
    case Ping(n) => b.(pings := b.pings + n)
    case Release(x, y, z, w) => InFlight(b.realtime - x, b.small - y, b.bulk - z, b.pings - w)
  }

  /** A run of events on a lane whose windows and datagrams stay within bounds. */
  ghost predicate Runs(b: InFlight, events: seq<Event>, window: nat, size: nat)
    decreases |events|
  {
    events == [] || (Possible(b, events[0], window, size)
      && Runs(After(b, events[0], window, size), events[1..], window, size))
  }

  ghost function Final(b: InFlight, events: seq<Event>, window: nat, size: nat): InFlight
    requires Runs(b, events, window, size)
    decreases |events|
  {
    if events == [] then b else Final(After(b, events[0], window, size), events[1..], window, size)
  }

  ghost predicate Bounded(b: InFlight, window: nat, size: nat) {
    && b.realtime <= window + size
    && b.small + b.bulk <= if size > window then size else window
  }

  lemma {:induction false} RealtimeWithinWindow(v: View, r: Request)
    requires v.Valid() && v.reservedRealtime + v.copies <= v.rate && v.inflightRealtime <= v.inflight
    requires r.class_ == Realtime && FitsWindow(v, r)
    ensures v.inflightRealtime <= v.window
  {
    hide RealtimeShare;
    ShareWithinWindow(v);
  }

  lemma {:induction false} ShareWithinWindow(v: View)
    requires v.rate > 0.0 && v.reservedRealtime + v.copies <= v.rate
    ensures RealtimeShare(v) <= v.window as real
  {
    var w, s := v.window as real, v.reservedRealtime + v.copies;
    Product(w, s, v.rate);
    Quotient(w * s, w, v.rate);
  }

  lemma {:induction false} Product(w: real, s: real, rate: real)
    requires w >= 0.0 && s <= rate
    ensures w * s <= w * rate
  {
    assert w * (rate - s) >= 0.0;
  }

  lemma {:induction false} Quotient(a: real, w: real, rate: real)
    requires rate > 0.0 && a <= w * rate
    ensures a / rate <= w
  {
    var q := a / rate;
    assert q * rate == a;
    if q > w { assert (q - w) * rate > 0.0; }
  }

  lemma {:induction false} EventKeepsBound(b: InFlight, e: Event, window: nat, size: nat)
    requires Bounded(b, window, size) && Possible(b, e, window, size)
    ensures Bounded(After(b, e, window, size), window, size)
  {
    if e.Send? && e.request.class_ == Realtime { RealtimeWithinWindow(e.view, e.request); }
  }

  /**
   * Windows hold over every run. However sends of all classes, retries, pings and releases interleave, the
   * real-time bytes in flight stay within one window and one datagram, and those of the lower classes
   * together within one window or, where the window is smaller, one datagram.
   */
  lemma {:induction false} InFlightBounded(b: InFlight, events: seq<Event>, window: nat, size: nat)
    requires Bounded(b, window, size) && Runs(b, events, window, size)
    ensures Bounded(Final(b, events, window, size), window, size)
    decreases |events|
  {
    if events != [] {
      EventKeepsBound(b, events[0], window, size);
      InFlightBounded(After(b, events[0], window, size), events[1..], window, size);
    }
  }
}
