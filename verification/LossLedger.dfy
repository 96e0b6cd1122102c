/** The loss of a lane, measured from the byte counts of sender and receiver. */
module LossLedgers {
  import opened Basics
  import opened Packets

  const SETTLE: int := 200 * MILLISECOND
  const HORIZON: int := 1000 * MILLISECOND
  const MAX_HORIZON: int := 4000 * MILLISECOND
  const LOSS_EVENTS: real := 3.0
  const LOSS_RATIO: real := 0.02
  const JUDGED: nat := 150

  datatype Entry = Entry(at: int, number: nat, sent: nat, deficit: real)

  datatype Ledger = Ledger(entries: seq<Entry>, settledLoss: real)

  // ----- the ledger as a value -----

  function Trim(entries: seq<Entry>, now: int): seq<Entry> {
    if entries != [] && now - entries[0].at >= MAX_HORIZON + 2 * SETTLE then Trim(entries[1..], now) else entries
  }

  function Record(l: Ledger, now: int, number: nat, sent: nat, received: nat, late: nat): Ledger {
    var kept := Trim(l.entries, now);
    if kept != [] && number <= kept[|kept| - 1].number then l.(entries := kept)
    else l.(entries := kept + [Entry(now, number, sent, Max(l.settledLoss, (sent - received - late) as real))])
  }

  /** The entry belongs to the current settling period (horizon 0) or to the one a horizon ago. */
  predicate InPeriod(e: Entry, now: int, horizon: int) {
    now - e.at < horizon + SETTLE && (horizon > 0 ==> horizon <= now - e.at)
  }

  /** The first of the entries with the lowest deficit of a period. */
  function Lowest(entries: seq<Entry>, now: int, horizon: int): Option<Entry> {
    if entries == [] then None else
      var r, e := Lowest(entries[..|entries| - 1], now, horizon), entries[|entries| - 1];
      if InPeriod(e, now, horizon) && (r.None? || e.deficit < r.value.deficit) then Some(e) else r
  }

  lemma {:induction false} LowestIs(entries: seq<Entry>, now: int, horizon: int)
    ensures Lowest(entries, now, horizon).None? <==> forall e :: e in entries ==> !InPeriod(e, now, horizon)
    ensures var r := Lowest(entries, now, horizon);
      r.Some? ==> (
        && r.value in entries && InPeriod(r.value, now, horizon)
        && forall e :: e in entries && InPeriod(e, now, horizon) ==> r.value.deficit <= e.deficit)
  {
    if entries != [] {
      LowestIs(entries[..|entries| - 1], now, horizon);
      assert entries == entries[..|entries| - 1] + [entries[|entries| - 1]];
    }
  }

  function Settle(l: Ledger, now: int): (Ledger, Option<real>) {
    match Lowest(l.entries, now, 0)
    case None => (l, None)
    case Some(e) => (l.(settledLoss := Max(l.settledLoss, e.deficit)), Some(e.deficit))
  }

  /** Loss, bytes and datagrams sent since the period a horizon ago, or a longer one until enough was sent. */
  datatype Loss = Loss(bytes: real, sent: int, datagrams: int)

  function LossSince(entries: seq<Entry>, now: int, recent: Entry, horizon: int): Loss
    decreases MAX_HORIZON + SETTLE - horizon
  {
    if horizon > MAX_HORIZON then Loss(0.0, 0, 0)
    else match Lowest(entries, now, horizon)
      case Some(e) =>
        if recent.number > e.number && (recent.number - e.number >= JUDGED || horizon + SETTLE > MAX_HORIZON)
        then Loss(Max(0.0, recent.deficit - e.deficit), recent.sent - e.sent, recent.number - e.number)
        else LossSince(entries, now, recent, horizon + SETTLE)
      case None => LossSince(entries, now, recent, horizon + SETTLE)
  }

  function Lost(l: Ledger, now: int): Loss {
    match Lowest(l.entries, now, 0)
    case None => Loss(0.0, 0, 0)
    case Some(recent) => LossSince(l.entries, now, recent, HORIZON)
  }

  predicate Material(l: Loss) {
    l.datagrams > 0 && l.bytes >= LOSS_EVENTS * l.sent as real / l.datagrams as real
      && l.bytes >= LOSS_RATIO * l.sent as real
  }

  // ----- the code -----

  class LossLedger {
    var entries: seq<Entry>
    var settledLoss: real

    ghost function Value(): Ledger
      reads this
    {
      Ledger(entries, settledLoss)
    }

    constructor ()
      ensures Value() == Ledger([], 0.0)
    {
      entries, settledLoss := [], 0.0;
    }

    method Add(now: int, number: nat, sent: nat, received: nat, late: nat)
      modifies this
      ensures Value() == Record(old(Value()), now, number, sent, received, late)
    {
      while |entries| > 0 && now - entries[0].at >= MAX_HORIZON + 2 * SETTLE
        invariant Trim(entries, now) == Trim(old(entries), now) && settledLoss == old(settledLoss)
        decreases |entries|
      {
        entries := entries[1..];
      }
      if |entries| > 0 && number <= entries[|entries| - 1].number {
        return;
      }
      entries := entries + [Entry(now, number, sent, Max(settledLoss, (sent - received - late) as real))];
    }

    /** The scan all queries share: the first entry of the lowest deficit in a period. */
    method Scan(now: int, horizon: int) returns (lowest: Option<Entry>)
      ensures lowest == Lowest(entries, now, horizon)
    {
      lowest := None;
      for i := 0 to |entries|
        invariant lowest == Lowest(entries[..i], now, horizon)
      {
        assert entries[..i + 1][..i] == entries[..i];
        var e := entries[i];
        if InPeriod(e, now, horizon) && (lowest.None? || e.deficit < lowest.value.deficit) {
          lowest := Some(e);
        }
      }
      assert entries[..|entries|] == entries;
    }

    method Settled(now: int) returns (known: Option<real>)
      modifies this
      ensures (Value(), known) == Settle(old(Value()), now)
    {
      var lowest := Scan(now, 0);
      if lowest.Some? {
        settledLoss := Max(settledLoss, lowest.value.deficit);
        return Some(lowest.value.deficit);
      }
      known := None;
    }

    method LostBytes(now: int) returns (loss: Loss)
      ensures loss == Lost(Value(), now)
    {
      var recent := Scan(now, 0);
      if recent.None? {
        return Loss(0.0, 0, 0);
      }
      var horizon := HORIZON;
      while horizon <= MAX_HORIZON
        invariant Lost(Value(), now) == LossSince(entries, now, recent.value, horizon)
        decreases MAX_HORIZON + SETTLE - horizon
      {
        var e := Scan(now, horizon);
        if e.Some? && recent.value.number > e.value.number {
          var datagrams := recent.value.number - e.value.number;
          if datagrams >= JUDGED || horizon + SETTLE > MAX_HORIZON {
            return Loss(Max(0.0, recent.value.deficit - e.value.deficit), recent.value.sent - e.value.sent, datagrams);
          }
        }
        horizon := horizon + SETTLE;
      }
      loss := Loss(0.0, 0, 0);
    }
  }

  // ----- runs -----

  datatype Op =
    | Count(now: int, number: nat, sent: nat, received: nat, late: nat)
    | Ask(now: int)

  function Apply(l: Ledger, op: Op): Ledger {
    match op
    case Count(now, number, sent, received, late) => Record(l, now, number, sent, received, late)
    case Ask(now) => Settle(l, now).0
  }

  function Answer(l: Ledger, op: Op): Option<real> {
    if op.Ask? then Settle(l, op.now).1 else None
  }

  /** The ledger before operation k of a run. */
  function Before(l: Ledger, ops: seq<Op>, k: nat): Ledger
    requires k <= |ops|
  {
    if k == 0 then l else Apply(Before(l, ops, k - 1), ops[k - 1])
  }

  /** The sender's counts: bytes sent through a lane number grow with the number. */
  ghost predicate Counts(ops: seq<Op>) {
    forall i, j :: 0 <= i < j < |ops| && ops[i].Count? && ops[j].Count? && ops[i].number < ops[j].number ==>
      ops[i].sent < ops[j].sent
  }

  ghost predicate Timely(ops: seq<Op>) {
    forall i, j :: 0 <= i < j < |ops| ==> ops[i].now <= ops[j].now
  }

  ghost predicate Recorded(e: Entry, ops: seq<Op>, k: nat)
    requires k <= |ops|
  {
    exists i :: 0 <= i < k && ops[i].Count? && ops[i].number == e.number && ops[i].sent == e.sent && ops[i].now == e.at
  }

  ghost predicate Ordered(entries: seq<Entry>) {
    forall i, j :: 0 <= i < j < |entries| ==>
      entries[i].number < entries[j].number && entries[i].sent < entries[j].sent && entries[i].at <= entries[j].at
  }

  /** No entry that can still be in the current period has a deficit below the settled loss. */
  ghost predicate Guarded(l: Ledger, now: int) {
    l.settledLoss >= 0.0 && forall e :: e in l.entries && InPeriod(e, now, 0) ==> e.deficit >= l.settledLoss
  }

  lemma {:induction false} TrimIsSuffix(entries: seq<Entry>, now: int)
    ensures |Trim(entries, now)| <= |entries| && Trim(entries, now) == entries[|entries| - |Trim(entries, now)|..]
  {
    if entries != [] && now - entries[0].at >= MAX_HORIZON + 2 * SETTLE { TrimIsSuffix(entries[1..], now); }
  }

  lemma {:induction false} SettleIsGuard(l: Ledger, now: int)
    requires Guarded(l, now)
    ensures Settle(l, now).1.Some? ==> l.settledLoss <= Settle(l, now).1.value == Settle(l, now).0.settledLoss
    ensures Settle(l, now).1.None? ==> Settle(l, now).0 == l
    ensures Guarded(Settle(l, now).0, now)
  {
    LowestIs(l.entries, now, 0);
  }

  lemma {:induction false} RecordGuards(l: Ledger, op: Op)
    requires op.Count? && Guarded(l, op.now)
    ensures Guarded(Apply(l, op), op.now) && Apply(l, op).settledLoss == l.settledLoss
  {
    TrimIsSuffix(l.entries, op.now);
    var kept := Trim(l.entries, op.now);
    assert forall e :: e in kept ==> e in l.entries;
  }

  lemma {:induction false} GuardAt(ops: seq<Op>, k: nat, now: int)
    requires Timely(ops) && k <= |ops| && forall i :: 0 <= i < k ==> ops[i].now <= now
    ensures Guarded(Before(Ledger([], 0.0), ops, k), now)
  {
    if k > 0 {
      var l, op := Before(Ledger([], 0.0), ops, k - 1), ops[k - 1];
      GuardAt(ops, k - 1, op.now);
      if op.Ask? { SettleIsGuard(l, op.now); } else { RecordGuards(l, op); }
      assert Guarded(Apply(l, op), op.now);
    }
  }

  lemma {:induction false} SettledGrows(ops: seq<Op>, i: nat, j: nat)
    requires Timely(ops) && i <= j <= |ops|
    ensures Before(Ledger([], 0.0), ops, i).settledLoss <= Before(Ledger([], 0.0), ops, j).settledLoss
  {
    if i < j {
      SettledGrows(ops, i, j - 1);
      var l, op := Before(Ledger([], 0.0), ops, j - 1), ops[j - 1];
      GuardAt(ops, j - 1, op.now);
      if op.Ask? { SettleIsGuard(l, op.now); } else { RecordGuards(l, op); }
    }
  }

  /** Over any run at non-decreasing times the loss so far never falls, however the deficits dip. */
  lemma {:induction false} SettledNeverFalls(ops: seq<Op>, i: nat, j: nat)
    requires Timely(ops) && i < j < |ops| && ops[i].Ask? && ops[j].Ask?
    requires Answer(Before(Ledger([], 0.0), ops, i), ops[i]).Some?
      && Answer(Before(Ledger([], 0.0), ops, j), ops[j]).Some?
    ensures Answer(Before(Ledger([], 0.0), ops, i), ops[i]).value
      <= Answer(Before(Ledger([], 0.0), ops, j), ops[j]).value
  {
    hide Guarded, Settle, Record;
    var l, m := Before(Ledger([], 0.0), ops, i), Before(Ledger([], 0.0), ops, j);
    GuardAt(ops, i, ops[i].now);
    SettleIsGuard(l, ops[i].now);
    assert Before(Ledger([], 0.0), ops, i + 1) == Apply(l, ops[i]);
    SettledGrows(ops, i + 1, j);
    GuardAt(ops, j, ops[j].now);
    SettleIsGuard(m, ops[j].now);
  }

  /** The entries are counts of the run, strictly increasing in number and in bytes sent. */
  lemma {:induction false} EntriesOrdered(ops: seq<Op>, k: nat)
    requires Timely(ops) && Counts(ops) && k <= |ops|
    ensures var l := Before(Ledger([], 0.0), ops, k);
      Ordered(l.entries) && forall e :: e in l.entries ==> Recorded(e, ops, k)
  {
    if k > 0 {
      EntriesOrdered(ops, k - 1);
      var l, op := Before(Ledger([], 0.0), ops, k - 1), ops[k - 1];
      forall e | e in l.entries ensures Recorded(e, ops, k) { assert Recorded(e, ops, k - 1); }
      if op.Count? {
        TrimIsSuffix(l.entries, op.now);
        AppendOrdered(ops, k, l, op);
      }
    }
  }

  lemma {:induction false} AppendOrdered(ops: seq<Op>, k: nat, l: Ledger, op: Op)
    requires Timely(ops) && Counts(ops) && 0 < k <= |ops| && op == ops[k - 1] && op.Count?
    requires Ordered(l.entries) && forall e :: e in l.entries ==> Recorded(e, ops, k - 1)
    ensures Ordered(Apply(l, op).entries)
      && forall e :: e in Apply(l, op).entries ==> e in l.entries || Recorded(e, ops, k)
  {
    TrimIsSuffix(l.entries, op.now);
    var kept := Trim(l.entries, op.now);
    assert forall e :: e in kept ==> e in l.entries;
    if kept == [] || op.number > kept[|kept| - 1].number {
      var added := Apply(l, op).entries[|kept|];
      assert Recorded(added, ops, k);
      forall i | 0 <= i < |kept| ensures kept[i].number < op.number && kept[i].sent < op.sent && kept[i].at <= op.now {
        assert kept[i] in l.entries && Recorded(kept[i], ops, k - 1);
      }
    }
  }

  lemma {:induction false} LossSinceSound(entries: seq<Entry>, now: int, recent: Entry, horizon: int, bound: real)
    requires Ordered(entries) && recent in entries && bound >= 0.0
    requires forall e :: e in entries ==> 0.0 <= e.deficit <= bound
    ensures var r := LossSince(entries, now, recent, horizon);
      0.0 <= r.bytes <= bound && (r == Loss(0.0, 0, 0) || (r.sent > 0 && r.datagrams > 0))
    decreases MAX_HORIZON + SETTLE - horizon
  {
    if horizon <= MAX_HORIZON {
      LowestIs(entries, now, horizon);
      LossSinceSound(entries, now, recent, horizon + SETTLE, bound);
    }
  }

  /** The place of the first of the entries with the lowest deficit of a period. */
  ghost predicate FirstLowest(entries: seq<Entry>, now: int, horizon: int, k: nat) {
    && k < |entries| && InPeriod(entries[k], now, horizon)
    && forall j :: 0 <= j < |entries| && InPeriod(entries[j], now, horizon) ==>
         entries[k].deficit <= entries[j].deficit && (j < k ==> entries[k].deficit < entries[j].deficit)
  }

  lemma {:induction false} LowestPlace(entries: seq<Entry>, now: int, horizon: int) returns (k: nat)
    ensures Lowest(entries, now, horizon).Some? ==>
      FirstLowest(entries, now, horizon, k) && Lowest(entries, now, horizon).value == entries[k]
  {
    k := 0;
    if entries != [] {
      var n := |entries| - 1;
      var last := LowestPlace(entries[..n], now, horizon);
      LowestIs(entries[..n], now, horizon);
      assert forall j :: 0 <= j < n ==> entries[j] == entries[..n][j] && entries[j] in entries[..n];
      k := if Lowest(entries, now, horizon) == Lowest(entries[..n], now, horizon) then last else n;
    }
  }

  lemma {:induction false} LowestIsFirst(entries: seq<Entry>, now: int, horizon: int)
    ensures match Lowest(entries, now, horizon)
      case None => forall k: nat :: !FirstLowest(entries, now, horizon, k)
      case Some(e) =>
        && (exists k: nat :: FirstLowest(entries, now, horizon, k))
        && forall k: nat :: FirstLowest(entries, now, horizon, k) ==> e == entries[k]
  {
    hide Lowest;
    LowestIs(entries, now, horizon);
    var place := LowestPlace(entries, now, horizon);
    forall k: nat | FirstLowest(entries, now, horizon, k) && Lowest(entries, now, horizon).Some? ensures k == place {
      assert entries[k].deficit == entries[place].deficit;
    }
  }

  /** The horizons looked at: a second, then longer by a settling period each, up to four seconds. */
  function Horizon(m: nat): int {
    HORIZON + m * SETTLE
  }

  const HORIZONS: nat := 16

  /** The m-th horizon is judged: fewer datagrams were sent by then, by 150 or, at the last horizon, by any. */
  ghost predicate JudgedAt(entries: seq<Entry>, now: int, recent: Entry, m: nat, k: nat) {
    && m < HORIZONS && FirstLowest(entries, now, Horizon(m), k) && recent.number > entries[k].number
    && (recent.number - entries[k].number >= 150 || m == HORIZONS - 1)
  }

  ghost predicate Unjudged(entries: seq<Entry>, now: int, recent: Entry, from: nat, to: nat) {
    forall m: nat, k: nat :: from <= m < to ==> !JudgedAt(entries, now, recent, m, k)
  }

  lemma {:induction false} LossSinceIs(entries: seq<Entry>, now: int, recent: Entry, from: nat)
    requires from <= HORIZONS
    ensures var r := LossSince(entries, now, recent, Horizon(from));
      || (r == Loss(0.0, 0, 0) && Unjudged(entries, now, recent, from, HORIZONS))
      || exists m: nat, k: nat :: (
           && from <= m && JudgedAt(entries, now, recent, m, k) && Unjudged(entries, now, recent, from, m)
           && r == Difference(recent, entries[k]))
    decreases HORIZONS - from
  {
    hide InPeriod, Lowest;
    if from < HORIZONS {
      LowestIsFirst(entries, now, Horizon(from));
      LossSinceIs(entries, now, recent, from + 1);
      assert Horizon(from + 1) == Horizon(from) + SETTLE;
      if k: nat :| JudgedAt(entries, now, recent, from, k) {
        assert k < |entries| && Unjudged(entries, now, recent, from, from);
      } else {
        if k: nat :| FirstLowest(entries, now, Horizon(from), k) {
          assert !JudgedAt(entries, now, recent, from, k);
        }
      }
    }
  }

  /** Bytes missing, bytes sent and datagrams sent between two entries. */
  function Difference(recent: Entry, e: Entry): Loss {
    Loss(if recent.deficit > e.deficit then recent.deficit - e.deficit else 0.0, recent.sent - e.sent,
         recent.number - e.number)
  }

  /**
   * The loss, exactly. From the lowest deficit of the current period it counts back to the lowest one of the
   * nearest judged horizon; without a current period, or a judged horizon, there is none.
   */
  lemma {:induction false} LostIs(l: Ledger, now: int)
    ensures var r := Lost(l, now);
      if a: nat :| FirstLowest(l.entries, now, 0, a) then
        || (r == Loss(0.0, 0, 0) && Unjudged(l.entries, now, l.entries[a], 0, HORIZONS))
        || exists m: nat, k: nat :: (
             && JudgedAt(l.entries, now, l.entries[a], m, k) && Unjudged(l.entries, now, l.entries[a], 0, m)
             && r == Difference(l.entries[a], l.entries[k]))
      else r == Loss(0.0, 0, 0)
  {
    LowestIsFirst(l.entries, now, 0);
    if a: nat :| FirstLowest(l.entries, now, 0, a) {
      LossSinceIs(l.entries, now, l.entries[a], 0);
    }
  }

  /** A period settles to its lowest deficit, exactly if it has an entry, and raises the settled loss to it. */
  lemma {:induction false} SettledIs(l: Ledger, now: int, k: nat)
    ensures Settle(l, now).1.Some? <==> exists e :: e in l.entries && now - e.at < 200 * MILLISECOND
    ensures Settle(l, now).0.entries == l.entries
    ensures if FirstLowest(l.entries, now, 0, k)
      then Settle(l, now).1 == Some(l.entries[k].deficit)
           && Settle(l, now).0.settledLoss == Max(l.settledLoss, l.entries[k].deficit)
      else Settle(l, now).1.None? ==> Settle(l, now).0 == l
  {
    hide Lowest;
    LowestIs(l.entries, now, 0);
    LowestIsFirst(l.entries, now, 0);
  }

  lemma {:induction false} TrimIs(entries: seq<Entry>, now: int, e: Entry)
    requires Ordered(entries)
    ensures e in Trim(entries, now) <==> e in entries && now - e.at < 4400 * MILLISECOND
  {
    if entries != [] {
      assert entries == [entries[0]] + entries[1..];
      TrimIs(entries[1..], now, e);
    }
  }

  /**
   * A count, exactly: entries of the last 4.4 seconds are kept and no others, and one is added, of at least the
   * settled loss, if its number is higher than those kept.
   */
  lemma {:induction false} RecordIs(l: Ledger, now: int, number: nat, sent: nat, received: nat, late: nat, e: Entry)
    requires Ordered(l.entries)
    ensures var r := Record(l, now, number, sent, received, late); var missing := (sent - received - late) as real;
      && r.settledLoss == l.settledLoss
      && (e in r.entries <==>
            || (e in l.entries && now - e.at < 4400 * MILLISECOND)
            || (e == Entry(now, number, sent, if missing > l.settledLoss then missing else l.settledLoss)
                && forall f :: f in l.entries && now - f.at < 4400 * MILLISECOND ==> f.number < number))
  {
    hide Trim;
    var kept := Trim(l.entries, now);
    forall f ensures f in kept <==> f in l.entries && now - f.at < 4400 * MILLISECOND { TrimIs(l.entries, now, f); }
    TrimIsSuffix(l.entries, now);
    assert forall k :: 0 <= k < |kept| ==> kept[k].number <= kept[|kept| - 1].number;
  }

  /** Loss is material exactly if it is at least three average datagrams and a fiftieth of the bytes sent. */
  lemma {:induction false} MaterialIff(r: Loss)
    ensures Material(r) <==>
      r.datagrams > 0 && r.bytes * r.datagrams as real >= 3.0 * r.sent as real && r.bytes * 50.0 >= r.sent as real
  {
    if r.datagrams > 0 {
      var n, part := r.datagrams as real, LOSS_EVENTS * r.sent as real / r.datagrams as real;
      assert part * n == 3.0 * r.sent as real;
      assert r.bytes >= part ==> (r.bytes - part) * n >= 0.0;
      assert r.bytes < part ==> (part - r.bytes) * n > 0.0;
    }
  }

  lemma {:induction false} DeficitsBounded(ops: seq<Op>, k: nat, bound: real)
    requires Timely(ops) && k <= |ops| && bound >= 0.0
    requires forall i :: 0 <= i < |ops| && ops[i].Count? ==>
      (ops[i].sent - ops[i].received - ops[i].late) as real <= bound
    ensures var l := Before(Ledger([], 0.0), ops, k);
      0.0 <= l.settledLoss <= bound && forall e :: e in l.entries ==> 0.0 <= e.deficit <= bound
  {
    if k > 0 {
      DeficitsBounded(ops, k - 1, bound);
      var l, op := Before(Ledger([], 0.0), ops, k - 1), ops[k - 1];
      if op.Count? {
        TrimIsSuffix(l.entries, op.now);
        assert forall e :: e in Trim(l.entries, op.now) ==> e in l.entries;
      } else {
        LowestIs(l.entries, op.now, 0);
      }
    }
  }

  /**
   * The loss reported at any time is never negative and never exceeds what the counts ever showed missing;
   * it comes with positive counts or not at all, so no unsigned subtraction underflows. In particular a
   * lane on which the counts never show bytes missing never has material loss.
   */
  lemma {:induction false} LossNeverOvercounted(ops: seq<Op>, now: int, bound: real)
    requires Timely(ops) && Counts(ops) && bound >= 0.0
    requires forall i :: 0 <= i < |ops| && ops[i].Count? ==>
      (ops[i].sent - ops[i].received - ops[i].late) as real <= bound
    ensures var r := Lost(Before(Ledger([], 0.0), ops, |ops|), now);
      && 0.0 <= r.bytes <= bound && (r == Loss(0.0, 0, 0) || (r.sent > 0 && r.datagrams > 0))
      && (bound == 0.0 ==> !Material(r))
  {
    hide Before, Recorded, Material;
    var l := Before(Ledger([], 0.0), ops, |ops|);
    EntriesOrdered(ops, |ops|);
    DeficitsBounded(ops, |ops|, bound);
    LowestIs(l.entries, now, 0);
    if Lowest(l.entries, now, 0).Some? {
      LossSinceSound(l.entries, now, Lowest(l.entries, now, 0).value, HORIZON, bound);
    }
    if bound == 0.0 { NoLossIsNotMaterial(Lost(l, now)); }
  }

  lemma {:induction false} NoLossIsNotMaterial(r: Loss)
    requires r.bytes == 0.0 && (r.datagrams > 0 ==> r.sent > 0)
    ensures !Material(r)
  {
    if r.datagrams > 0 { assert r.sent as real > 0.0; }
  }
}
