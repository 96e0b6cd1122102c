/** The five rotating buckets behind a lane's delivery peak and the demand meters. */
module SlidingWindows {
  import opened Basics
  import opened Packets

  const BUCKETS: nat := 5

  /** What was recorded, and when. */
  datatype Sample = Sample(at: int, value: real)

  /** The highest, or the sum, of the values recorded from lo up to hi; at least zero. */
  ghost function Fold(history: seq<Sample>, lo: int, hi: int, summing: bool): real {
    if history == [] then 0.0 else
      var rest, s := Fold(history[..|history| - 1], lo, hi, summing), history[|history| - 1];
      if !(lo <= s.at < hi) then rest else if summing then rest + s.value else Max(rest, s.value)
  }

  lemma {:induction false} FoldEmpty(history: seq<Sample>, lo: int, hi: int, summing: bool)
    requires forall s :: s in history ==> s.at < lo || hi <= s.at
    ensures Fold(history, lo, hi, summing) == 0.0
  {
    if history != [] { FoldEmpty(history[..|history| - 1], lo, hi, summing); }
  }

  /** The highest value of a span is zero or one of its values, and at least each of them. */
  lemma {:induction false} FoldIsHighest(history: seq<Sample>, lo: int, hi: int)
    ensures forall s :: s in history && lo <= s.at < hi ==> s.value <= Fold(history, lo, hi, false)
    ensures Fold(history, lo, hi, false) == 0.0
      || exists s :: s in history && lo <= s.at < hi && s.value == Fold(history, lo, hi, false)
    ensures Fold(history, lo, hi, false) >= 0.0
  {
    if history != [] {
      FoldIsHighest(history[..|history| - 1], lo, hi);
      assert history == history[..|history| - 1] + [history[|history| - 1]];
    }
  }

  lemma {:induction false} SumAtLeastEach(history: seq<Sample>, lo: int, hi: int)
    requires forall s :: s in history ==> s.value >= 0.0
    ensures Fold(history, lo, hi, true) >= 0.0
    ensures forall s :: s in history && lo <= s.at < hi ==> s.value <= Fold(history, lo, hi, true)
  {
    if history != [] {
      SumAtLeastEach(history[..|history| - 1], lo, hi);
      assert history == history[..|history| - 1] + [history[|history| - 1]];
    }
  }

  /** The beginning of the span d bucket lengths before the one that began at s. */
  ghost function From(s: int, length: int, d: int): int {
    if d <= 0 then s else if d == 1 then s - length else if d == 2 then s - 2 * length
    else if d == 3 then s - 3 * length else s - 4 * length
  }

  /** What was recorded in the span d bucket lengths before the current one. */
  ghost function Span(history: seq<Sample>, s: int, length: int, d: int, summing: bool): real {
    Fold(history, From(s, length, d), From(s, length, d) + length, summing)
  }

  /** The sum of what was recorded in the bucket length that began at from. */
  ghost function SumFrom(history: seq<Sample>, from: int, length: int): real {
    Fold(history, from, from + length, true)
  }

  /** How many turns back the bucket of an earlier time is. */
  ghost function BucketOf(s: int, length: int, at: int): (d: int)
    requires length > 0 && s - 4 * length <= at < s + length
    ensures 0 <= d < BUCKETS && From(s, length, d) <= at < From(s, length, d) + length
  {
    if at >= s then 0 else if at >= s - length then 1 else if at >= s - 2 * length then 2
    else if at >= s - 3 * length then 3 else 4
  }

  /** highest is the highest of the five spans up to the current one. */
  ghost predicate HighestSpan(history: seq<Sample>, s: int, length: int, summing: bool, highest: real) {
    && highest >= 0.0
    && (forall d :: 0 <= d < BUCKETS ==> Span(history, s, length, d, summing) <= highest)
    && (highest == 0.0 || exists d :: 0 <= d < BUCKETS && Span(history, s, length, d, summing) == highest)
  }

  /** At least every value of the last four bucket lengths; zero or a value younger than five. */
  ghost predicate RecentPeak(history: seq<Sample>, now: int, length: int, r: real) {
    && (forall x :: x in history && now - x.at <= 4 * length ==> x.value <= r)
    && (r == 0.0 || exists x :: x in history && now - x.at < 5 * length && x.value == r)
  }

  /** The aligned bucket lengths: the current one began at s, and sum d is that of the one d lengths before it. */
  ghost predicate BucketSums(history: seq<Sample>, s: int, now: int, length: int, r: real) {
    && s <= now < s + length
    && (forall d :: 0 <= d < BUCKETS ==> SumFrom(history, From(s, length, d), length) <= r)
    && (r == 0.0 || exists d :: 0 <= d < BUCKETS && SumFrom(history, From(s, length, d), length) == r)
  }

  /**
   * Zero or the sum of one bucket length begun less than five ago, and the highest of the sums of the five
   * aligned bucket lengths up to the current one; so at least every recent sample, and at least half of what
   * was recorded in any bucket length of the last four.
   */
  ghost predicate RecentSum(history: seq<Sample>, now: int, length: int, r: real) {
    && (exists s :: BucketSums(history, s, now, length, r))
    && (r == 0.0 || exists from :: now - 5 * length < from <= now && SumFrom(history, from, length) == r)
    && (forall x :: x in history && now - x.at <= 4 * length ==> x.value <= r)
    && (forall from :: now - 4 * length <= from <= now ==> SumFrom(history, from, length) <= 2.0 * r)
  }

  lemma {:induction false} HighestIsPeak(history: seq<Sample>, s: int, now: int, length: int, r: real)
    requires length > 0 && s <= now < s + length && (forall x :: x in history ==> x.at <= now)
    requires HighestSpan(history, s, length, false, r)
    ensures RecentPeak(history, now, length, r)
  {
    hide Fold;
    forall x | x in history && now - x.at <= 4 * length ensures x.value <= r {
      var d := BucketOf(s, length, x.at);
      FoldIsHighest(history, From(s, length, d), From(s, length, d) + length);
      assert Span(history, s, length, d, false) <= r;
    }
    if r != 0.0 {
      var d :| 0 <= d < BUCKETS && Span(history, s, length, d, false) == r;
      FoldIsHighest(history, From(s, length, d), From(s, length, d) + length);
    }
  }

  /** A span covered by two adjacent ones holds no more than both together. */
  lemma {:induction false} Covered(history: seq<Sample>, lo: int, hi: int, a: int, b: int, c: int)
    requires a <= lo && hi <= c && a <= b <= c && forall x :: x in history ==> x.value >= 0.0
    ensures Fold(history, lo, hi, true) <= Fold(history, a, b, true) + Fold(history, b, c, true)
  {
    if history != [] {
      Covered(history[..|history| - 1], lo, hi, a, b, c);
      assert history[|history| - 1] in history;
    }
  }

  /** Nothing recorded counts for nothing, however far the span reaches. */
  lemma {:induction false} NoneAfter(history: seq<Sample>, lo: int, hi: int, end: int)
    requires end <= hi && forall x :: x in history ==> x.at < end
    ensures Fold(history, lo, hi, true) == Fold(history, lo, end, true)
  {
    if history != [] {
      NoneAfter(history[..|history| - 1], lo, hi, end);
      assert history[|history| - 1] in history;
    }
  }

  /** Any bucket length of the last four lies in two adjacent buckets. */
  lemma {:induction false} TwoBuckets(history: seq<Sample>, s: int, now: int, length: int, from: int, r: real)
    requires length > 0 && s <= now < s + length && (forall x :: x in history ==> x.at <= now && x.value >= 0.0)
    requires HighestSpan(history, s, length, true, r) && now - 4 * length <= from <= now
    ensures SumFrom(history, from, length) <= 2.0 * r
  {
    hide Fold, BucketOf;
    var d := BucketOf(s, length, from);
    var a := From(s, length, d);
    assert Span(history, s, length, d, true) <= r;
    if d == 0 {
      NoneAfter(history, from, from + length, s + length);
      Covered(history, from, s + length, a, a + length, a + length);
      FoldEmpty(history, a + length, a + length, true);
    } else {
      assert Span(history, s, length, d - 1, true) <= r && From(s, length, d - 1) == a + length;
      Covered(history, from, from + length, a, a + length, a + length + length);
    }
  }

  lemma {:induction false} HighestIsSum(history: seq<Sample>, s: int, now: int, length: int, r: real)
    requires length > 0 && s <= now < s + length && (forall x :: x in history ==> x.at <= now && x.value >= 0.0)
    requires HighestSpan(history, s, length, true, r)
    ensures BucketSums(history, s, now, length, r) && RecentSum(history, now, length, r)
  {
    hide Fold;
    forall x | x in history && now - x.at <= 4 * length ensures x.value <= r {
      var d := BucketOf(s, length, x.at);
      SumAtLeastEach(history, From(s, length, d), From(s, length, d) + length);
      assert Span(history, s, length, d, true) <= r;
    }
    forall d | 0 <= d < BUCKETS ensures SumFrom(history, From(s, length, d), length) <= r {
      assert Span(history, s, length, d, true) <= r;
    }
    forall from | now - 4 * length <= from <= now ensures SumFrom(history, from, length) <= 2.0 * r {
      TwoBuckets(history, s, now, length, from, r);
    }
    if r != 0.0 {
      var d :| 0 <= d < BUCKETS && Span(history, s, length, d, true) == r;
      assert SumFrom(history, From(s, length, d), length) == r;
    }
  }

  /** The place of the bucket d turns back. */
  function Slot(index: nat, d: nat): (k: nat)
    requires index < BUCKETS && d < BUCKETS
    ensures k < BUCKETS
  {
    if d <= index then index - d else index + BUCKETS - d
  }

  /** peak (summing is false) or rateMeter (summing is true) with the given bucket length. */
  class SlidingWindow {
    const length: int
    const summing: bool
    var start: Option<int>
    var buckets: array<real>
    var index: nat
    ghost var history: seq<Sample>

    /** The bucket d turns back holds what was recorded in the span d bucket lengths before the current one. */
    ghost predicate Holds(s: int, d: nat)
      reads this, buckets
      requires buckets.Length == BUCKETS && index < BUCKETS && d < BUCKETS
    {
      buckets[Slot(index, d)] == Span(history, s, length, d, summing)
    }

    ghost predicate Valid()
      reads this, buckets
    {
      && length > 0 && buckets.Length == BUCKETS && index < BUCKETS
      && match start
         case None => history == []
         case Some(s) =>
           && (forall x :: x in history ==> x.at < s + length)
           && Holds(s, 0) && Holds(s, 1) && Holds(s, 2) && Holds(s, 3) && Holds(s, 4)
    }

    constructor (length: int, summing: bool)
      requires length > 0
      ensures Valid() && history == [] && start.None? && fresh(buckets)
      ensures this.length == length && this.summing == summing
    {
      this.length, this.summing, start, index, history := length, summing, None, 0, [];
      buckets := new real[BUCKETS](_ => 0.0);
    }

    /** Moves on to the bucket of now, clearing those it passes. */
    method Rotate(now: int)
      requires Valid() && forall x :: x in history ==> x.at <= now
      requires start.Some? ==> start.value <= now
      modifies this`start, this`index, buckets
      ensures Valid() && start.Some? && start.value <= now < start.value + length
    {
      if start.None? || now - start.value >= BUCKETS * length {
        Reset(now);
        return;
      }
      while now - start.value >= length
        invariant Valid() && start.Some? && start.value <= now
        decreases now - start.value
      {
        Turn(start.value);
      }
    }

    method Reset(now: int)
      requires Valid() && (start.Some? ==> now - start.value >= BUCKETS * length)
      modifies this`start, this`index, buckets
      ensures Valid() && start == Some(now)
    {
      forall d: nat | d < BUCKETS ensures Span(history, now, length, d, summing) == 0.0 {
        FoldEmpty(history, From(now, length, d), From(now, length, d) + length, summing);
      }
      forall i | 0 <= i < BUCKETS {
        buckets[i] := 0.0;
      }
      start, index := Some(now), 0;
    }

    method Turn(s: int)
      requires Valid() && start == Some(s)
      modifies this`start, this`index, buckets
      ensures Valid() && start == Some(s + length)
    {
      hide Fold;
      FoldEmpty(history, s + length, s + length + length, summing);
      start := Some(s + length);
      index := (index + 1) % BUCKETS;
      buckets[index] := 0.0;
    }

    method Record(now: int, value: real)
      requires Valid() && (forall x :: x in history ==> x.at <= now) && (start.Some? ==> start.value <= now)
      modifies this, buckets
      ensures Valid() && buckets == old(buckets)
      ensures history == old(history) + [Sample(now, value)] && start.Some? && start.value <= now
    {
      Rotate(now);
      buckets[index] := if summing then buckets[index] + value else Max(buckets[index], value);
      history := history + [Sample(now, value)];
      assert history[..|history| - 1] == old(history);
    }

    /** The highest bucket. */
    method Highest(now: int) returns (highest: real, ghost s: int)
      requires Valid() && (forall x :: x in history ==> x.at <= now) && (start.Some? ==> start.value <= now)
      modifies this`start, this`index, buckets
      ensures Valid() && start == Some(s) && s <= now < s + length
      ensures HighestSpan(history, s, length, summing, highest)
    {
      hide Span;
      Rotate(now);
      s := start.value;
      highest := 0.0;
      for i := 0 to BUCKETS
        invariant highest >= 0.0 && forall k :: 0 <= k < i ==> buckets[k] <= highest
        invariant highest == 0.0 || exists k :: 0 <= k < i && buckets[k] == highest
      {
        highest := Max(highest, buckets[i]);
      }
      forall d: nat | d < BUCKETS ensures Span(history, s, length, d, summing) <= highest {
        assert Holds(s, d);
      }
      if highest != 0.0 {
        ghost var k :| 0 <= k < BUCKETS && buckets[k] == highest;
        ghost var d := Slot(index, k);
        assert Slot(index, d) == k && Holds(s, d);
      }
    }

    /** peak.value */
    method Peak(now: int) returns (r: real)
      requires Valid() && !summing && (forall x :: x in history ==> x.at <= now) && (start.Some? ==> start.value <= now)
      modifies this`start, this`index, buckets
      ensures Valid() && start.Some? && start.value <= now
      ensures RecentPeak(history, now, length, r)
    {
      hide HighestSpan, Span;
      ghost var s: int;
      r, s := Highest(now);
      HighestIsPeak(history, s, now, length, r);
    }

    /** rateMeter.rate, over a bucket length of the given seconds. */
    method Rate(now: int, seconds: real) returns (r: real)
      requires Valid() && summing && (forall x :: x in history ==> x.at <= now) && (start.Some? ==> start.value <= now)
      requires seconds > 0.0 && forall x :: x in history ==> x.value >= 0.0
      modifies this`start, this`index, buckets
      ensures Valid() && start.Some? && start.value <= now
      ensures RecentSum(history, now, length, r * seconds)
    {
      hide HighestSpan, Span;
      ghost var s: int;
      var highest;
      highest, s := Highest(now);
      HighestIsSum(history, s, now, length, highest);
      r := highest / seconds;
      assert r * seconds == highest;
    }
  }
}
