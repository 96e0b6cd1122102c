/** How the measured demand of the small classes is reserved on the lanes, and what that leaves each class. */
module Reservation {
  import opened Basics
  import opened Packets

  const MINIMUM_CLASS_SHARE: real := 0.05
  const SMALL_CLASS_SHARE: real := 0.5
  const RESERVATION_HEADROOM: real := 1.1
  const FULL_DATAGRAM_WIRE_BYTES: real := 1500.0
  const TARGET_QUEUE_SECONDS: real := 0.01

  datatype Liveness = Live | Suspect | Dead

  /** What the reservation reads of a lane. */
  datatype Facts = Facts(rate: real, latency: int, state: Liveness, undiscovered: bool)

  /** eligible: a suspect lane still carries all but bulk. */
  predicate MayCarry(state: Liveness, c: Class) {
    state == Live || (c != Bulk && state == Suspect)
  }

  predicate Eligible(f: Facts, c: Class) {
    MayCarry(f.state, c)
  }

  /** The outcome on the eligible lanes, in order of latency. guarantor* is the lane count when there is none. */
  datatype Plan = Plan(
    realtime: seq<real>, copies: seq<real>, small: seq<real>,
    smallGuarantor: nat, bulkGuarantor: nat, shared: bool, bulkElsewhere: seq<bool>)

  function Sum(s: seq<real>): real {
    if s == [] then 0.0 else Sum(s[..|s| - 1]) + s[|s| - 1]
  }

  // ----- lanes in order of latency -----

  /** Puts lane x behind the lanes that are no slower. */
  function Insert(lanes: seq<Facts>, x: Facts): (r: seq<Facts>)
    ensures multiset(r) == multiset(lanes) + multiset{x}
    ensures |r| == |lanes| + 1
  {
    if lanes == [] || lanes[|lanes| - 1].latency <= x.latency then lanes + [x]
    else
      assert lanes == lanes[..|lanes| - 1] + [lanes[|lanes| - 1]];
      Insert(lanes[..|lanes| - 1], x) + [lanes[|lanes| - 1]]
  }

  /** The lanes that may carry real-time datagrams, fastest first. */
  function ByLatency(paths: seq<Facts>): seq<Facts> {
    if paths == [] then [] else
      var p, rest := paths[|paths| - 1], ByLatency(paths[..|paths| - 1]);
      if Eligible(p, Realtime) then Insert(rest, p) else rest
  }

  ghost predicate Sorted(lanes: seq<Facts>) {
    forall i, j :: 0 <= i < j < |lanes| ==> lanes[i].latency <= lanes[j].latency
  }

  lemma {:induction false} InsertSorts(lanes: seq<Facts>, x: Facts)
    requires Sorted(lanes)
    ensures Sorted(Insert(lanes, x))
    ensures forall p :: p in Insert(lanes, x) <==> p in lanes || p == x
  {
    if lanes != [] && lanes[|lanes| - 1].latency > x.latency {
      var rest, last := lanes[..|lanes| - 1], lanes[|lanes| - 1];
      InsertSorts(rest, x);
      assert lanes == rest + [last];
      assert forall i :: 0 <= i < |rest| ==> rest[i].latency <= last.latency;
      var r := Insert(rest, x);
      assert forall i :: 0 <= i < |r| ==> r[i] in r;
    }
  }

  lemma {:induction false} ByLatencySorts(paths: seq<Facts>)
    ensures Sorted(ByLatency(paths))
    ensures forall p :: p in ByLatency(paths) <==> p in paths && Eligible(p, Realtime)
  {
    if paths != [] {
      var rest, p := paths[..|paths| - 1], paths[|paths| - 1];
      ByLatencySorts(rest);
      InsertSorts(ByLatency(rest), p);
      assert paths == rest + [p];
    }
  }

  // ----- greedy assignment -----

  /** What a lane with this room takes of the need that is left. */
  function Take(need: real, room: real): real {
    Max(0.0, Min(need, room))
  }

  /** The need that is left before lane k. */
  function Left(need: real, rooms: seq<real>, k: nat): real
    requires k <= |rooms|
  {
    if k == 0 then need else Left(need, rooms, k - 1) - Take(Left(need, rooms, k - 1), rooms[k - 1])
  }

  /** got is the demand assigned to the lanes in order, each taking what its room allows. */
  ghost predicate Greedy(need: real, rooms: seq<real>, got: seq<real>) {
    && |got| == |rooms|
    && forall k :: 0 <= k < |rooms| ==> got[k] == Take(Left(need, rooms, k), rooms[k])
  }

  lemma {:induction false} LeftIsUnassigned(need: real, rooms: seq<real>, got: seq<real>, k: nat)
    requires Greedy(need, rooms, got) && need >= 0.0 && k <= |rooms|
    ensures Left(need, rooms, k) == need - Sum(got[..k]) && 0.0 <= Left(need, rooms, k)
  {
    if k > 0 {
      LeftIsUnassigned(need, rooms, got, k - 1);
      assert got[..k][..k - 1] == got[..k - 1];
    }
  }

  lemma {:induction false} LeftFalls(need: real, rooms: seq<real>, j: nat, k: nat)
    requires j <= k <= |rooms| && need >= 0.0
    ensures 0.0 <= Left(need, rooms, k) <= Left(need, rooms, j)
  {
    if k > 0 {
      if j < k { LeftFalls(need, rooms, j, k - 1); } else { LeftFalls(need, rooms, k - 1, k - 1); }
    }
  }

  /** A lane that is not full means no need is left for the lanes behind it. */
  lemma {:induction false} NotFullTakesAll(need: real, rooms: seq<real>, j: nat, k: nat)
    requires j < k <= |rooms| && need >= 0.0 && Take(Left(need, rooms, j), rooms[j]) < Max(0.0, rooms[j])
    ensures Left(need, rooms, k) == 0.0
  {
    LeftFalls(need, rooms, j, j);
    LeftFalls(need, rooms, j + 1, k);
  }

  /**
   * The greedy assignment is safe, bounded and maximal: no lane exceeds its room, the total does not
   * exceed the need, demand is left over only if every lane is full, and a lane is used only if every
   * faster one is full.
   */
  lemma {:induction false} GreedyLaw(need: real, rooms: seq<real>, got: seq<real>)
    requires Greedy(need, rooms, got) && need >= 0.0
    ensures forall k :: 0 <= k < |rooms| ==> 0.0 <= got[k] <= Max(0.0, rooms[k])
    ensures Sum(got) <= need
    ensures Sum(got) < need ==> forall k :: 0 <= k < |rooms| ==> got[k] == Max(0.0, rooms[k])
    ensures forall j, k :: 0 <= j < k < |rooms| && got[k] > 0.0 ==> got[j] == Max(0.0, rooms[j])
  {
    LeftIsUnassigned(need, rooms, got, |rooms|);
    assert got[..|rooms|] == got;
    forall k | 0 <= k < |rooms| ensures 0.0 <= got[k] <= Max(0.0, rooms[k]) { LeftIsUnassigned(need, rooms, got, k); }
    forall j | 0 <= j < |rooms| && got[j] < Max(0.0, rooms[j]) ensures Sum(got) == need {
      NotFullTakesAll(need, rooms, j, |rooms|);
    }
    forall j, k | 0 <= j < k < |rooms| && got[k] > 0.0 ensures got[j] == Max(0.0, rooms[j]) {
      if got[j] < Max(0.0, rooms[j]) { NotFullTakesAll(need, rooms, j, k); }
    }
  }

  method Assign(need: real, rooms: seq<real>) returns (got: seq<real>)
    ensures Greedy(need, rooms, got)
  {
    hide Min, Max;
    got := [];
    var left := need;
    for k := 0 to |rooms|
      invariant |got| == k && left == Left(need, rooms, k)
      invariant forall j :: 0 <= j < k ==> got[j] == Take(Left(need, rooms, j), rooms[j])
    {
      var share := Max(0.0, Min(left, rooms[k]));
      got := got + [share];
      left := left - share;
    }
  }

  /** assignable: what the class would reserve on lane k if demand were assigned in order without a guarantee. */
  method Assignable(need: real, free: seq<real>, k: nat) returns (share: real)
    requires k < |free| && need >= 0.0 && forall j :: 0 <= j < |free| ==> free[j] >= 0.0
    ensures share == Take(Left(need, free, k), free[k])
  {
    var left := need;
    for i := 0 to k
      invariant left == Left(need, free, i) && left >= 0.0
    {
      LeftFalls(need, free, i, i + 1);
      left := left - Min(left, free[i]);
    }
    share := Min(left, free[k]);
  }

  /** The room a lane keeps beyond what the class would take of it. */
  function Spare(need: real, free: seq<real>, k: nat): real
    requires k < |free|
  {
    free[k] - Take(Left(need, free, k), free[k])
  }

  /** Lane g is the first of those with the most capacity left for the next class; the lane count when there is none. */
  ghost predicate Guarantor(lanes: seq<Facts>, next: Class, need: real, free: seq<real>, g: nat)
    requires |free| == |lanes|
  {
    && g <= |lanes|
    && (g == |lanes| <==> forall k :: 0 <= k < |lanes| ==> !Eligible(lanes[k], next))
    && (g < |lanes| ==> Eligible(lanes[g], next))
    && (g < |lanes| ==> forall k :: 0 <= k < |lanes| && Eligible(lanes[k], next) ==>
          Spare(need, free, k) <= Spare(need, free, g) && (k < g ==> Spare(need, free, k) < Spare(need, free, g)))
  }

  method ChooseGuarantor(lanes: seq<Facts>, next: Class, need: real, free: seq<real>) returns (g: nat)
    requires |free| == |lanes| && need >= 0.0 && forall j :: 0 <= j < |free| ==> free[j] >= 0.0
    ensures Guarantor(lanes, next, need, free, g)
  {
    g := |lanes|;
    for i := 0 to |lanes|
      invariant g == |lanes| <==> forall k :: 0 <= k < i ==> !Eligible(lanes[k], next)
      invariant g == |lanes| || (g < i && Eligible(lanes[g], next))
      invariant g < |lanes| ==> forall k :: 0 <= k < i && Eligible(lanes[k], next) ==>
        Spare(need, free, k) <= Spare(need, free, g) && (k < g ==> Spare(need, free, k) < Spare(need, free, g))
    {
      if Eligible(lanes[i], next) {
        if g == |lanes| {
          g := i;
        } else {
          var mine := Assignable(need, free, i);
          var best := Assignable(need, free, g);
          if free[i] - mine > free[g] - best {
            g := i;
          }
        }
      }
    }
  }

  // ----- the reservation -----

  /** realtimeLane: bulk keeps off the lane, to its minimum share at most. */
  predicate RealtimeLane(f: Facts, bulkElsewhere: bool)
    requires f.rate > 0.0
  {
    !f.undiscovered && bulkElsewhere && FULL_DATAGRAM_WIRE_BYTES / f.rate > TARGET_QUEUE_SECONDS
  }

  predicate RatesOk(lanes: seq<Facts>) {
    forall k :: 0 <= k < |lanes| ==> lanes[k].rate > 0.0
  }

  function Rates(lanes: seq<Facts>): (rates: seq<real>)
    ensures |rates| == |lanes|
    ensures forall k :: 0 <= k < |lanes| ==> rates[k] == lanes[k].rate
  {
    seq(|lanes|, k requires 0 <= k < |lanes| => lanes[k].rate)
  }

  function RealtimeRoom(lanes: seq<Facts>, g: nat, k: nat): real
    requires k < |lanes|
  {
    lanes[k].rate - if k == g then 2.0 * MINIMUM_CLASS_SHARE * lanes[k].rate else 0.0
  }

  function RealtimeRooms(lanes: seq<Facts>, g: nat): (rooms: seq<real>)
    ensures |rooms| == |lanes|
    ensures forall k :: 0 <= k < |lanes| ==> rooms[k] == RealtimeRoom(lanes, g, k)
  {
    seq(|lanes|, k requires 0 <= k < |lanes| => RealtimeRoom(lanes, g, k))
  }

  /** What real-time datagrams and their copies leave on each lane. */
  function Remainder(lanes: seq<Facts>, realtime: seq<real>, copies: seq<real>): (free: seq<real>)
    requires |lanes| == |realtime| == |copies|
    ensures |free| == |lanes|
    ensures forall k :: 0 <= k < |lanes| ==> free[k] == lanes[k].rate - realtime[k] - copies[k]
  {
    seq(|lanes|, k requires 0 <= k < |lanes| => lanes[k].rate - realtime[k] - copies[k])
  }

  function SmallRoom(f: Facts, free: real, shared: bool, bulkElsewhere: bool, guarantor: bool): real
    requires f.rate > 0.0
  {
    var room := free - if guarantor then MINIMUM_CLASS_SHARE * f.rate else 0.0;
    if shared && !RealtimeLane(f, bulkElsewhere) then Min(room, SMALL_CLASS_SHARE * free) else room
  }

  function SmallRooms(
    lanes: seq<Facts>, free: seq<real>, shared: bool, elsewhere: seq<bool>, g: nat): (rooms: seq<real>)
    requires |lanes| == |free| == |elsewhere| && RatesOk(lanes)
    ensures |rooms| == |lanes|
    ensures forall k :: 0 <= k < |lanes| ==> rooms[k] == SmallRoom(lanes[k], free[k], shared, elsewhere[k], k == g)
  {
    seq(|lanes|, k requires 0 <= k < |lanes| => SmallRoom(lanes[k], free[k], shared, elsewhere[k], k == g))
  }

  function SuspectShare(lanes: seq<Facts>, got: seq<real>, n: nat): real
    requires n <= |lanes| == |got|
  {
    if n == 0 then 0.0 else SuspectShare(lanes, got, n - 1) + if lanes[n - 1].state == Suspect then got[n - 1] else 0.0
  }

  lemma {:induction false} SumBounds(s: seq<real>, k: nat)
    requires k < |s| && forall j :: 0 <= j < |s| ==> s[j] >= 0.0
    ensures 0.0 <= s[k] <= Sum(s)
  {
    if k == |s| - 1 {
      SumNonNegative(s[..|s| - 1]);
    } else {
      SumBounds(s[..|s| - 1], k);
    }
  }

  lemma {:induction false} SumNonNegative(s: seq<real>)
    requires forall j :: 0 <= j < |s| ==> s[j] >= 0.0
    ensures Sum(s) >= 0.0
  {
    if s != [] { SumNonNegative(s[..|s| - 1]); }
  }

  lemma {:induction false} SuspectBounds(lanes: seq<Facts>, got: seq<real>, k: nat, n: nat)
    requires k < n <= |lanes| == |got| && forall j :: 0 <= j < |got| ==> got[j] >= 0.0
    ensures 0.0 <= SuspectShare(lanes, got, n)
    ensures lanes[k].state == Suspect ==> got[k] <= SuspectShare(lanes, got, n)
  {
    SuspectNonNegative(lanes, got, n - 1);
    if k < n - 1 { SuspectBounds(lanes, got, k, n - 1); }
  }

  lemma {:induction false} SuspectNonNegative(lanes: seq<Facts>, got: seq<real>, n: nat)
    requires n <= |lanes| == |got| && forall j :: 0 <= j < |got| ==> got[j] >= 0.0
    ensures 0.0 <= SuspectShare(lanes, got, n)
  {
    if n > 0 { SuspectNonNegative(lanes, got, n - 1); }
  }

  /** What lane k sets aside for copies: at least the originals of suspect lanes elsewhere, as far as room allows. */
  function CopyWish(lanes: seq<Facts>, got: seq<real>, budget: real, k: nat): real
    requires k < |lanes| == |got| && Sum(got) != 0.0
  {
    Wish(SuspectShare(lanes, got, |lanes|), lanes[k].state == Suspect, budget, Sum(got), got[k])
  }

  function Wish(suspects: real, suspect: bool, budget: real, originals: real, mine: real): real
    requires originals != 0.0
  {
    Max(if suspect then suspects - mine else suspects, Min(budget, originals) * (1.0 - mine / originals))
  }

  /** The copies each lane sets aside. */
  ghost predicate Copies(lanes: seq<Facts>, got: seq<real>, budget: real, copies: seq<real>)
    requires |got| == |lanes|
  {
    && |copies| == |lanes|
    && (Sum(got) == 0.0 || |lanes| < 2 ==> forall k :: 0 <= k < |lanes| ==> copies[k] == 0.0)
    && (Sum(got) != 0.0 && |lanes| >= 2 ==>
        forall k :: 0 <= k < |lanes| ==> copies[k] == Min(lanes[k].rate - got[k], CopyWish(lanes, got, budget, k)))
  }

  /** The real-time reservations of the lanes in all, and of those that are suspect. */
  method Originals(lanes: seq<Facts>, got: seq<real>) returns (originals: real, suspect: real)
    requires |got| == |lanes|
    ensures originals == Sum(got) && suspect == SuspectShare(lanes, got, |lanes|)
  {
    originals, suspect := 0.0, 0.0;
    for k := 0 to |lanes|
      invariant originals == Sum(got[..k]) && suspect == SuspectShare(lanes, got, k)
    {
      assert got[..k + 1][..k] == got[..k];
      originals := originals + got[k];
      if lanes[k].state == Suspect {
        suspect := suspect + got[k];
      }
    }
    assert got[..|lanes|] == got;
  }

  /** reserveCopies */
  method ReserveCopies(lanes: seq<Facts>, got: seq<real>, budget: real) returns (copies: seq<real>)
    requires |got| == |lanes| && RatesOk(lanes) && budget >= 0.0
    requires forall k :: 0 <= k < |lanes| ==> 0.0 <= got[k] <= lanes[k].rate
    ensures |copies| == |lanes| && Copies(lanes, got, budget, copies)
  {
    hide Sum, SuspectShare, Wish;
    var originals, suspect := Originals(lanes, got);
    copies := seq(|lanes|, _ => 0.0);
    if originals == 0.0 || |lanes| < 2 {
      return;
    }
    for k := 0 to |lanes|
      invariant |copies| == |lanes|
      invariant forall j :: 0 <= j < k ==> copies[j] == Min(lanes[j].rate - got[j], CopyWish(lanes, got, budget, j))
    {
      var wish := Wish(suspect, lanes[k].state == Suspect, budget, originals, got[k]);
      copies := copies[k := Min(lanes[k].rate - got[k], wish)];
    }
  }

  lemma {:induction false} CopyWishNonNegative(lanes: seq<Facts>, got: seq<real>, budget: real, k: nat)
    requires k < |lanes| == |got| && Sum(got) != 0.0 && budget >= 0.0
    requires forall j :: 0 <= j < |got| ==> got[j] >= 0.0
    ensures CopyWish(lanes, got, budget, k) >= 0.0
  {
    SuspectBounds(lanes, got, k, |lanes|);
  }

  lemma {:induction false} CopiesFit(lanes: seq<Facts>, got: seq<real>, budget: real, copies: seq<real>)
    requires |got| == |lanes| && budget >= 0.0 && Copies(lanes, got, budget, copies)
    requires forall k :: 0 <= k < |lanes| ==> 0.0 <= got[k] <= lanes[k].rate
    ensures forall k :: 0 <= k < |lanes| ==> 0.0 <= copies[k] <= lanes[k].rate - got[k]
  {
    hide CopyWish, Sum;
    if Sum(got) != 0.0 && |lanes| >= 2 {
      forall k | 0 <= k < |lanes| ensures 0.0 <= copies[k] <= lanes[k].rate - got[k] {
        CopyWishNonNegative(lanes, got, budget, k);
      }
    }
  }

  /** The real-time originals of the suspect lanes other than k. */
  function SuspectElsewhere(lanes: seq<Facts>, got: seq<real>, k: nat): real
    requires k < |lanes| == |got|
  {
    SuspectShare(lanes, got, |lanes|) - if lanes[k].state == Suspect then got[k] else 0.0
  }

  /** Every lane sets aside room for a copy of all that suspect lanes elsewhere carry, or all the room it has. */
  lemma {:induction false} CopiesCoverSuspects(
    lanes: seq<Facts>, got: seq<real>, budget: real, copies: seq<real>, k: nat)
    requires k < |lanes| == |got| && |lanes| >= 2 && Copies(lanes, got, budget, copies)
    requires forall j :: 0 <= j < |lanes| ==> 0.0 <= got[j] <= lanes[j].rate
    ensures copies[k] >= Min(lanes[k].rate - got[k], SuspectElsewhere(lanes, got, k))
  {
    if Sum(got) == 0.0 { NoSuspects(lanes, got, |lanes|); }
  }

  lemma {:induction false} NoSuspects(lanes: seq<Facts>, got: seq<real>, n: nat)
    requires n <= |lanes| == |got| && Sum(got) == 0.0 && forall j :: 0 <= j < |got| ==> got[j] >= 0.0
    ensures SuspectShare(lanes, got, n) == 0.0
  {
    if n > 0 { SumBounds(got, n - 1); NoSuspects(lanes, got, n - 1); }
  }

  /** Bulk can go elsewhere: a lane for it carries no real-time reservation, and this one does. */
  predicate BulkElsewhere(lanes: seq<Facts>, realtime: seq<real>, k: nat)
    requires k < |lanes| == |realtime|
  {
    realtime[k] > 0.0 && exists j :: 0 <= j < |lanes| && Eligible(lanes[j], Bulk) && realtime[j] == 0.0
  }

  /** The shape of a plan for these lanes. */
  ghost predicate Fits(lanes: seq<Facts>, p: Plan) {
    |p.realtime| == |p.copies| == |p.small| == |p.bulkElsewhere| == |lanes| && RatesOk(lanes)
  }

  /** The reservation of the measured demand. */
  ghost predicate Reserves(lanes: seq<Facts>, realtime: real, small: real, budget: real, bulkWaiting: bool, p: Plan) {
    && Fits(lanes, p) && p.shared == bulkWaiting
    && Guarantor(lanes, Small, RESERVATION_HEADROOM * realtime, Rates(lanes), p.smallGuarantor)
    && Greedy(RESERVATION_HEADROOM * realtime, RealtimeRooms(lanes, p.smallGuarantor), p.realtime)
    && Copies(lanes, p.realtime, budget, p.copies)
    && (forall k :: 0 <= k < |lanes| ==> p.bulkElsewhere[k] == BulkElsewhere(lanes, p.realtime, k))
    && ReservesSmall(lanes, Remainder(lanes, p.realtime, p.copies), RESERVATION_HEADROOM * small, p)
  }

  ghost predicate ReservesSmall(lanes: seq<Facts>, free: seq<real>, need: real, p: Plan)
    requires |free| == |lanes| && Fits(lanes, p)
  {
    && Guarantor(lanes, Bulk, need, free, p.bulkGuarantor)
    && Greedy(need, SmallRooms(lanes, free, p.shared, p.bulkElsewhere, p.bulkGuarantor), p.small)
  }

  /** reserve */
  method Reserve(paths: seq<Facts>, demandRealtime: real, demandSmall: real, budget: real, bulkWaiting: bool)
    returns (lanes: seq<Facts>, p: Plan)
    requires RatesOk(paths) && demandRealtime >= 0.0 && demandSmall >= 0.0 && budget >= 0.0
    ensures lanes == ByLatency(paths)
    ensures Reserves(lanes, demandRealtime, demandSmall, budget, bulkWaiting, p)
  {
    hide Greedy, Guarantor, Copies, SmallRoom, BulkElsewhere;
    lanes := ByLatency(paths);
    RatesKept(paths);
    var g, realtime := ReserveRealtime(lanes, RESERVATION_HEADROOM * demandRealtime);
    var copies := ReserveCopies(lanes, realtime, budget);
    CopiesFit(lanes, realtime, budget, copies);
    var elsewhere := KeepBulkOff(lanes, realtime);
    var b, small := ReserveSmall(lanes, Remainder(lanes, realtime, copies), RESERVATION_HEADROOM * demandSmall,
      bulkWaiting, elsewhere);
    p := Plan(realtime, copies, small, g, b, bulkWaiting, elsewhere);
  }

  /** Marks the lanes with a real-time reservation while another lane is quiet. */
  method KeepBulkOff(lanes: seq<Facts>, realtime: seq<real>) returns (elsewhere: seq<bool>)
    requires |realtime| == |lanes|
    ensures |elsewhere| == |lanes|
    ensures forall k :: 0 <= k < |lanes| ==> elsewhere[k] == BulkElsewhere(lanes, realtime, k)
  {
    var quiet := 0;
    for k := 0 to |lanes|
      invariant quiet >= 0
      invariant quiet > 0 <==> exists j :: 0 <= j < k && Eligible(lanes[j], Bulk) && realtime[j] == 0.0
    {
      if Eligible(lanes[k], Bulk) && realtime[k] == 0.0 {
        quiet := quiet + 1;
      }
    }
    elsewhere := seq(|lanes|, k requires 0 <= k < |lanes| => quiet > 0 && realtime[k] > 0.0);
  }

  /** Reserves the demand of small TCP datagrams in what is left. */
  method ReserveSmall(lanes: seq<Facts>, free: seq<real>, need: real, shared: bool, elsewhere: seq<bool>)
    returns (b: nat, small: seq<real>)
    requires |free| == |lanes| == |elsewhere| && RatesOk(lanes) && need >= 0.0
    requires forall k :: 0 <= k < |lanes| ==> free[k] >= 0.0
    ensures Guarantor(lanes, Bulk, need, free, b) && |small| == |lanes|
    ensures Greedy(need, SmallRooms(lanes, free, shared, elsewhere, b), small)
  {
    hide Guarantor;
    b := ChooseGuarantor(lanes, Bulk, need, free);
    small := Assign(need, SmallRooms(lanes, free, shared, elsewhere, b));
  }

  lemma {:induction false} RatesKept(paths: seq<Facts>)
    requires RatesOk(paths)
    ensures RatesOk(ByLatency(paths))
  {
    ByLatencySorts(paths);
    var lanes := ByLatency(paths);
    forall k | 0 <= k < |lanes| ensures lanes[k].rate > 0.0 { assert lanes[k] in lanes; }
  }

  /** Reserves the real-time demand, leaving room on the lane that guarantees the lower classes. */
  method ReserveRealtime(lanes: seq<Facts>, need: real) returns (g: nat, got: seq<real>)
    requires RatesOk(lanes) && need >= 0.0
    ensures Guarantor(lanes, Small, need, Rates(lanes), g) && |got| == |lanes|
    ensures Greedy(need, RealtimeRooms(lanes, g), got)
    ensures forall k :: 0 <= k < |lanes| ==> 0.0 <= got[k] <= lanes[k].rate
  {
    hide Guarantor;
    g := ChooseGuarantor(lanes, Small, need, Rates(lanes));
    got := Assign(need, RealtimeRooms(lanes, g));
    GreedyLaw(need, RealtimeRooms(lanes, g), got);
  }

  /** The real-time reservations and the copies fit each lane. */
  lemma {:induction false} RealtimeSafe(
    lanes: seq<Facts>, realtime: real, small: real, budget: real, bulkWaiting: bool, p: Plan)
    requires Reserves(lanes, realtime, small, budget, bulkWaiting, p) && realtime >= 0.0 && budget >= 0.0
    ensures forall k :: 0 <= k < |lanes| ==>
      p.realtime[k] >= 0.0 && p.copies[k] >= 0.0 && p.realtime[k] + p.copies[k] <= lanes[k].rate
    ensures Sum(p.realtime) <= RESERVATION_HEADROOM * realtime
    ensures Sum(p.realtime) < RESERVATION_HEADROOM * realtime ==>
      forall k :: 0 <= k < |lanes| ==> p.realtime[k] == RealtimeRoom(lanes, p.smallGuarantor, k)
    ensures forall j, k :: 0 <= j < k < |lanes| && p.realtime[k] > 0.0 ==>
      p.realtime[j] == RealtimeRoom(lanes, p.smallGuarantor, j)
  {
    hide Greedy, Sum, Guarantor, Copies, ReservesSmall;
    GreedyLaw(RESERVATION_HEADROOM * realtime, RealtimeRooms(lanes, p.smallGuarantor), p.realtime);
    CopiesFit(lanes, p.realtime, budget, p.copies);
  }

  /**
   * Reservation safety. On every lane the reservations of the small classes and the copies are
   * non-negative and together within the lane's rate; each class's total is within its need; need is left
   * over only when every lane's room is used up; and real-time demand reaches a lane only when every
   * faster one is full.
   */
  lemma {:induction false} ReservationSafe(
    lanes: seq<Facts>, realtime: real, small: real, budget: real, bulkWaiting: bool, p: Plan)
    requires Reserves(lanes, realtime, small, budget, bulkWaiting, p) && realtime >= 0.0 && small >= 0.0
      && budget >= 0.0
    ensures forall k :: 0 <= k < |lanes| ==>
      && p.realtime[k] >= 0.0 && p.copies[k] >= 0.0 && p.small[k] >= 0.0
      && p.realtime[k] + p.copies[k] + p.small[k] <= lanes[k].rate
    ensures Sum(p.realtime) <= RESERVATION_HEADROOM * realtime && Sum(p.small) <= RESERVATION_HEADROOM * small
    ensures Sum(p.realtime) < RESERVATION_HEADROOM * realtime ==>
      forall k :: 0 <= k < |lanes| ==> p.realtime[k] == RealtimeRoom(lanes, p.smallGuarantor, k)
    ensures Sum(p.small) < RESERVATION_HEADROOM * small ==>
      var rooms := SmallRooms(lanes, Remainder(lanes, p.realtime, p.copies), p.shared, p.bulkElsewhere,
        p.bulkGuarantor);
      forall k :: 0 <= k < |lanes| ==> p.small[k] == Max(0.0, rooms[k])
    ensures forall j, k :: 0 <= j < k < |lanes| && p.realtime[k] > 0.0 ==>
      p.realtime[j] == RealtimeRoom(lanes, p.smallGuarantor, j)
  {
    hide Greedy, Sum, RealtimeLane, Guarantor, Copies;
    RealtimeSafe(lanes, realtime, small, budget, bulkWaiting, p);
    var rooms := SmallRooms(lanes, Remainder(lanes, p.realtime, p.copies), p.shared, p.bulkElsewhere, p.bulkGuarantor);
    GreedyLaw(RESERVATION_HEADROOM * small, rooms, p.small);
  }

  // ----- what a class may use -----

  predicate Guaranteed(p: Plan, c: Class, k: nat) {
    match c
    case Realtime => false
    case Small => k == p.smallGuarantor
    case Bulk => k == p.bulkGuarantor
  }

  /** allowed: the rate class c may use on lane k. */
  function Allowed(lanes: seq<Facts>, p: Plan, c: Class, k: nat): real
    requires k < |lanes| == |p.realtime| == |p.copies| == |p.small| == |p.bulkElsewhere| && lanes[k].rate > 0.0
  {
    var floor_ := MINIMUM_CLASS_SHARE * lanes[k].rate;
    if c == Bulk && RealtimeLane(lanes[k], p.bulkElsewhere[k]) then
      if Guaranteed(p, c, k) then floor_ else 0.0
    else if c == Small && p.shared && !RealtimeLane(lanes[k], p.bulkElsewhere[k]) then
      if Guaranteed(p, c, k) then Max(p.small[k], floor_) else p.small[k]
    else
      var higher := (if c != Realtime then p.realtime[k] + p.copies[k] else 0.0)
        + (if c == Bulk then p.small[k] else 0.0);
      var lower := (if c == Realtime && Guaranteed(p, Small, k) then floor_ else 0.0)
                 + (if c != Bulk && Guaranteed(p, Bulk, k) then floor_ else 0.0);
      var rate := lanes[k].rate - higher - lower;
      Max(0.0, if Guaranteed(p, c, k) then Max(rate, floor_) else rate)
  }

  /**
   * The guarantee. While some eligible lane exists for a lower class exactly one lane guarantees it, and
   * there the class may use at least a twentieth of the lane's rate, whatever is reserved above it.
   */
  lemma {:induction false} GuaranteedShare(
    lanes: seq<Facts>, realtime: real, small: real, budget: real, bulkWaiting: bool, p: Plan, c: Class)
    requires Reserves(lanes, realtime, small, budget, bulkWaiting, p) && c != Realtime
    ensures (exists k :: 0 <= k < |lanes| && Eligible(lanes[k], c)) <==>
      exists k :: 0 <= k < |lanes| && Guaranteed(p, c, k)
    ensures forall j, k :: 0 <= j < |lanes| && 0 <= k < |lanes| && Guaranteed(p, c, j) && Guaranteed(p, c, k) ==> j == k
    ensures forall k :: 0 <= k < |lanes| && Guaranteed(p, c, k) ==>
      Allowed(lanes, p, c, k) >= MINIMUM_CLASS_SHARE * lanes[k].rate
  {
    hide Greedy, Copies;
    var g := if c == Small then p.smallGuarantor else p.bulkGuarantor;
    if g < |lanes| { assert Guaranteed(p, c, g); }
  }

  /** What the classes above c reserved on lane k, with the copies. */
  function Above(p: Plan, c: Class, k: nat): real
    requires k < |p.realtime| == |p.copies| == |p.small|
  {
    match c
    case Realtime => 0.0
    case Small => p.realtime[k] + p.copies[k]
    case Bulk => p.realtime[k] + p.copies[k] + p.small[k]
  }

  /** Reservations and copies are non-negative and fit the lane. */
  ghost predicate Safe(f: Facts, realtime: real, copies: real, small: real) {
    f.rate > 0.0 && realtime >= 0.0 && copies >= 0.0 && small >= 0.0 && realtime + copies + small <= f.rate
  }

  /**
   * What a class may use leaves free all that is reserved above it, except that the guarantor of a class
   * lets it use exactly the minimum share; no class is allowed more than the lane's rate or less than nothing.
   */
  lemma {:induction false} AllowedLeavesReserved(lanes: seq<Facts>, p: Plan, c: Class, k: nat)
    requires Fits(lanes, p) && k < |lanes| && Safe(lanes[k], p.realtime[k], p.copies[k], p.small[k])
    ensures 0.0 <= Allowed(lanes, p, c, k) <= lanes[k].rate
    ensures Allowed(lanes, p, c, k) + Above(p, c, k) <= lanes[k].rate
         || (Guaranteed(p, c, k) && Allowed(lanes, p, c, k) == MINIMUM_CLASS_SHARE * lanes[k].rate)
  {
    hide RealtimeLane;
  }

  /** After every reservation that holds for every class on every lane. */
  lemma {:induction false} AllowedAfterReserve(
    lanes: seq<Facts>, realtime: real, small: real, budget: real, bulkWaiting: bool, p: Plan, c: Class, k: nat)
    requires Reserves(lanes, realtime, small, budget, bulkWaiting, p) && realtime >= 0.0 && small >= 0.0
      && budget >= 0.0
    requires k < |lanes|
    ensures 0.0 <= Allowed(lanes, p, c, k) <= lanes[k].rate
    ensures Allowed(lanes, p, c, k) + Above(p, c, k) <= lanes[k].rate
         || (Guaranteed(p, c, k) && Allowed(lanes, p, c, k) == MINIMUM_CLASS_SHARE * lanes[k].rate)
  {
    hide Greedy, Sum, Guarantor, Copies, ReservesSmall, Allowed;
    ReservationSafe(lanes, realtime, small, budget, bulkWaiting, p);
    AllowedLeavesReserved(lanes, p, c, k);
  }

  /** The minimum shares that lane k keeps for the classes below c. */
  function Below(lanes: seq<Facts>, p: Plan, c: Class, k: nat): real
    requires k < |lanes|
  {
    MINIMUM_CLASS_SHARE * lanes[k].rate
    * ((if c == Realtime && k == p.smallGuarantor then 1.0 else 0.0)
       + (if c != Bulk && k == p.bulkGuarantor then 1.0 else 0.0))
  }

  /** One full datagram of bulk would hold up a real-time one on lane k for longer than its queue may be. */
  ghost predicate TooSlowForBulk(lanes: seq<Facts>, p: Plan, k: nat)
    requires k < |lanes| == |p.realtime| && RatesOk(lanes)
  {
    && FULL_DATAGRAM_WIRE_BYTES > TARGET_QUEUE_SECONDS * lanes[k].rate && !lanes[k].undiscovered
    && p.realtime[k] > 0.0 && exists j :: 0 <= j < |lanes| && Eligible(lanes[j], Bulk) && p.realtime[j] == 0.0
  }

  lemma {:induction false} TooSlowIs(lanes: seq<Facts>, p: Plan, k: nat)
    requires Fits(lanes, p) && k < |lanes| && p.bulkElsewhere[k] == BulkElsewhere(lanes, p.realtime, k)
    ensures TooSlowForBulk(lanes, p, k) <==> RealtimeLane(lanes[k], p.bulkElsewhere[k])
  {
    SlowerThan(FULL_DATAGRAM_WIRE_BYTES, lanes[k].rate, TARGET_QUEUE_SECONDS);
  }

  lemma {:induction false} SlowerThan(bytes: real, rate: real, seconds: real)
    requires rate > 0.0
    ensures bytes / rate > seconds <==> bytes > seconds * rate
  {
    var q := bytes / rate;
    assert q * rate == bytes;
    if q > seconds { assert (q - seconds) * rate > 0.0; } else { assert (seconds - q) * rate >= 0.0; }
  }

  /**
   * Nothing is withheld. What a class may use, what is reserved above it and what the lane keeps for the classes
   * below it add up to the rate of the lane, unless the class is raised to its guaranteed minimum or the rest
   * is spoken for. Two cases are apart: bulk on a lane it would slow real-time datagrams on has its guaranteed
   * minimum or nothing, and small TCP datagrams beside waiting bulk have what is reserved for them, and the
   * minimum where it is guaranteed.
   */
  lemma {:induction false} NothingWithheld(lanes: seq<Facts>, p: Plan, c: Class, k: nat)
    requires Fits(lanes, p) && k < |lanes| && Safe(lanes[k], p.realtime[k], p.copies[k], p.small[k])
    requires p.bulkElsewhere[k] == BulkElsewhere(lanes, p.realtime, k)
    ensures var rate, may, slow := lanes[k].rate, Allowed(lanes, p, c, k), TooSlowForBulk(lanes, p, k);
      var least := if Guaranteed(p, c, k) then MINIMUM_CLASS_SHARE * rate else 0.0;
      if c == Bulk && slow then may == least
      else if c == Small && p.shared && !slow then may == Max(p.small[k], least)
      else may == Max(least, rate - Above(p, c, k) - Below(lanes, p, c, k))
  {
    hide RealtimeLane, TooSlowForBulk;
    TooSlowIs(lanes, p, k);
  }

  /** So it is for every class on every lane after every reservation. */
  lemma {:induction false} NothingWithheldAfterReserve(
    lanes: seq<Facts>, realtime: real, small: real, budget: real, bulkWaiting: bool, p: Plan, c: Class, k: nat)
    requires Reserves(lanes, realtime, small, budget, bulkWaiting, p) && realtime >= 0.0 && small >= 0.0
      && budget >= 0.0
    requires k < |lanes|
    ensures var rate, may, slow := lanes[k].rate, Allowed(lanes, p, c, k), TooSlowForBulk(lanes, p, k);
      var least := if Guaranteed(p, c, k) then MINIMUM_CLASS_SHARE * rate else 0.0;
      if c == Bulk && slow then may == least
      else if c == Small && bulkWaiting && !slow then may == Max(p.small[k], least)
      else may == Max(least, rate - Above(p, c, k) - Below(lanes, p, c, k))
  {
    hide Greedy, Sum, Guarantor, Copies, ReservesSmall, Allowed, TooSlowForBulk, BulkElsewhere;
    ReservationSafe(lanes, realtime, small, budget, bulkWaiting, p);
    NothingWithheld(lanes, p, c, k);
  }

  /**
   * How far each class is reserved. Real-time datagrams may be given all of a lane but a tenth of the one that
   * guarantees the lower classes, and are while need is left. Small TCP datagrams may be given what is left,
   * but a twentieth where bulk is guaranteed, and beside waiting bulk half of it unless the lane is kept free
   * of bulk anyway; and are while need is left.
   */
  lemma {:induction false} ReservedInFull(
    lanes: seq<Facts>, realtime: real, small: real, budget: real, bulkWaiting: bool, p: Plan, k: nat)
    requires Reserves(lanes, realtime, small, budget, bulkWaiting, p) && realtime >= 0.0 && small >= 0.0
      && budget >= 0.0
    requires k < |lanes|
    ensures var most := (if k == p.smallGuarantor then 0.9 else 1.0) * lanes[k].rate;
      && p.realtime[k] <= most && (Sum(p.realtime) < RESERVATION_HEADROOM * realtime ==> p.realtime[k] == most)
    ensures var free := lanes[k].rate - p.realtime[k] - p.copies[k];
      var room := free - if k == p.bulkGuarantor then 0.05 * lanes[k].rate else 0.0;
      var most := Max(0.0, if bulkWaiting && !TooSlowForBulk(lanes, p, k) then Min(room, free / 2.0) else room);
      && p.small[k] <= most && (Sum(p.small) < RESERVATION_HEADROOM * small ==> p.small[k] == most)
  {
    hide Greedy, Sum, Guarantor, Copies, RealtimeLane, TooSlowForBulk, BulkElsewhere;
    ReservationSafe(lanes, realtime, small, budget, bulkWaiting, p);
    TooSlowIs(lanes, p, k);
    var free := Remainder(lanes, p.realtime, p.copies);
    var rooms := SmallRooms(lanes, free, p.shared, p.bulkElsewhere, p.bulkGuarantor);
    GreedyLaw(RESERVATION_HEADROOM * realtime, RealtimeRooms(lanes, p.smallGuarantor), p.realtime);
    GreedyLaw(RESERVATION_HEADROOM * small, rooms, p.small);
  }

  /**
   * The copies set aside. Without originals, or on a single lane, there are none. Otherwise a lane sets aside
   * its part of the copy rate, the part of the originals that other lanes carry, or room for all originals
   * of suspect lanes elsewhere if that is more; less only if its room is used up, and never more.
   */
  lemma {:induction false} CopiesInFull(
    lanes: seq<Facts>, got: seq<real>, budget: real, copies: seq<real>, k: nat)
    requires k < |lanes| == |got| && Copies(lanes, got, budget, copies) && budget >= 0.0
    requires forall j :: 0 <= j < |lanes| ==> 0.0 <= got[j] <= lanes[j].rate
    ensures |lanes| < 2 || Sum(got) == 0.0 ==> copies[k] == 0.0
    ensures |lanes| >= 2 && Sum(got) > 0.0 ==>
      var room, part := lanes[k].rate - got[k], Part(Min(budget, Sum(got)), Sum(got) - got[k], Sum(got));
      && (copies[k] < part || copies[k] < SuspectElsewhere(lanes, got, k) ==> copies[k] == room)
      && copies[k] <= room && (copies[k] <= part || copies[k] <= SuspectElsewhere(lanes, got, k))
  {
    hide Sum, SuspectShare, Wish, Part;
    if |lanes| >= 2 && Sum(got) > 0.0 {
      WishIs(SuspectShare(lanes, got, |lanes|), lanes[k].state == Suspect, budget, Sum(got), got[k]);
    }
  }

  /** The part of a rate that is to it as some is to all. */
  function Part(rate: real, some: real, all: real): (part: real)
    requires all > 0.0
    ensures part * all == rate * some
  {
    var share := some / all;
    assert share * all == some;
    assert rate * share * all == rate * (share * all);
    rate * share
  }

  lemma {:induction false} WishIs(suspects: real, suspect: bool, budget: real, originals: real, mine: real)
    requires originals > 0.0
    ensures Wish(suspects, suspect, budget, originals, mine) ==
      Max(if suspect then suspects - mine else suspects, Part(Min(budget, originals), originals - mine, originals))
  {
    var q := mine / originals;
    assert q * originals == mine;
    var share := (originals - mine) / originals;
    assert share * originals == originals - mine;
    Cancel(share, 1.0 - q, originals);
  }

  lemma {:induction false} Cancel(x: real, y: real, c: real)
    requires c > 0.0 && x * c == y * c
    ensures x == y
  {
    assert x < y ==> (y - x) * c > 0.0;
    assert x > y ==> (x - y) * c > 0.0;
  }

  // ----- the order is stable -----

  /** The lanes of one latency, in order. */
  function OfLatency(lanes: seq<Facts>, latency: int): seq<Facts> {
    if lanes == [] then [] else
      OfLatency(lanes[..|lanes| - 1], latency)
      + if lanes[|lanes| - 1].latency == latency then [lanes[|lanes| - 1]] else []
  }

  function Carriers(paths: seq<Facts>): seq<Facts> {
    if paths == [] then [] else
      Carriers(paths[..|paths| - 1])
      + if Eligible(paths[|paths| - 1], Realtime) then [paths[|paths| - 1]] else []
  }

  lemma {:induction false} OfLatencyJoins(lanes: seq<Facts>, x: Facts, latency: int)
    ensures OfLatency(lanes + [x], latency) == OfLatency(lanes, latency) + if x.latency == latency then [x] else []
  {
    assert (lanes + [x])[..|lanes|] == lanes;
  }

  lemma {:induction false} InsertStable(lanes: seq<Facts>, x: Facts, latency: int)
    requires Sorted(lanes)
    ensures OfLatency(Insert(lanes, x), latency) == OfLatency(lanes + [x], latency)
  {
    hide OfLatency;
    OfLatencyJoins(lanes, x, latency);
    if lanes != [] && lanes[|lanes| - 1].latency > x.latency {
      var rest, last := lanes[..|lanes| - 1], lanes[|lanes| - 1];
      InsertStable(rest, x, latency);
      OfLatencyJoins(rest, x, latency);
      OfLatencyJoins(Insert(rest, x), last, latency);
      assert lanes == rest + [last];
      OfLatencyJoins(rest, last, latency);
    }
  }

  /** Every eligible lane is considered once, and lanes of equal latency in the order they are held in. */
  lemma {:induction false} ByLatencyStable(paths: seq<Facts>, latency: int)
    ensures OfLatency(ByLatency(paths), latency) == OfLatency(Carriers(paths), latency)
  {
    hide OfLatency, Insert, Sorted;
    if paths != [] {
      var rest, p := paths[..|paths| - 1], paths[|paths| - 1];
      ByLatencyStable(rest, latency);
      ByLatencySorts(rest);
      InsertStable(ByLatency(rest), p, latency);
      OfLatencyJoins(ByLatency(rest), p, latency);
      OfLatencyJoins(Carriers(rest), p, latency);
      assert Carriers(rest) + [] == Carriers(rest);
    }
  }
}
