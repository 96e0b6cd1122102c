/** The highest delivery a lane kept up over a span, from the receiver's byte counts. */
module SustainedDeliveries {
  import opened Packets
  import opened SlidingWindows

  const SPAN: int := 500 * MILLISECOND

  /** One of the five buckets of the peak. */
  const MEMORY: int := 500 * MILLISECOND

  /** The receiver's count of bytes at its elapsed time. */
  datatype Mark = Mark(bytes: nat, elapsed: nat)

  /** Bytes delivered in a time. */
  datatype Delivery = Delivery(bytes: int, elapsed: int)

  ghost predicate Growing(marks: seq<Mark>) {
    forall i, j :: 0 <= i <= j < |marks| ==> marks[i].bytes <= marks[j].bytes && marks[i].elapsed <= marks[j].elapsed
  }

  /** Mark k of the history is the newest that is at least a span older than the last. */
  ghost predicate Reference(history: seq<Mark>, k: nat) {
    && k < |history| && history[|history| - 1].elapsed - history[k].elapsed >= SPAN
    && (k + 1 < |history| ==> history[|history| - 1].elapsed - history[k + 1].elapsed < SPAN)
  }

  /** No mark of the history is a span older than the last. */
  ghost predicate NothingOld(history: seq<Mark>) {
    forall k :: 0 <= k < |history| ==> history[|history| - 1].elapsed - history[k].elapsed < SPAN
  }

  /** The marks kept are the history from mark n, the newest that was a span old when the last was made. */
  ghost predicate Kept(history: seq<Mark>, marks: seq<Mark>, n: nat) {
    && Growing(history) && n <= |history| && marks == history[n..] && (history != [] ==> n < |history|)
    && (n > 0 ==> Reference(history, n))
  }

  /** Bytes a second. */
  function PerSecond(d: Delivery): real
    requires d.elapsed > 0
  {
    d.bytes as real / (d.elapsed as real / 1_000_000_000.0)
  }

  class SustainedDelivery {
    const best: SlidingWindow
    var marks: seq<Mark>
    ghost var history: seq<Mark>
    ghost var dropped: nat

    ghost predicate Valid()
      reads this, best, best.buckets
    {
      Kept(history, marks, dropped) && best.Valid() && best.length == MEMORY && !best.summing
    }

    /** Nothing was recorded, and no bucket was begun, after this time. */
    ghost predicate Until(now: int)
      reads best
    {
      (forall x :: x in best.history ==> x.at <= now) && (best.start.Some? ==> best.start.value <= now)
    }

    constructor ()
      ensures Valid() && history == [] && best.history == [] && fresh(best) && fresh(best.buckets)
      ensures forall now :: Until(now)
    {
      best := new SlidingWindow(MEMORY, false);
      marks, history, dropped := [], [], 0;
    }

    /**
     * Records a count. When a mark is at least a span older, the delivery since the newest such one is kept
     * as a rate for the peak; otherwise nothing is.
     */
    method Record(now: int, bytes: nat, elapsed: nat)
      requires Valid() && Until(now) && Follows(history, Mark(bytes, elapsed))
      modifies this, best, best.buckets
      ensures Valid() && Until(now) && best.buckets == old(best.buckets)
      ensures history == old(history) + [Mark(bytes, elapsed)]
      ensures NothingOld(history) ==> best.history == old(best.history)
      ensures !NothingOld(history) ==> exists kept :: (Measured(history, kept)
        && kept.elapsed >= SPAN && best.history == old(best.history) + [Sample(now, PerSecond(kept))])
    {
      hide Measured, Kept, NothingOld, Follows;
      var last := Mark(bytes, elapsed);
      var rest, k := Slide(marks + [last], elapsed);
      Slid(history, marks, dropped, last, marks + [last], rest, k);
      history, marks, dropped := history + [last], rest, dropped + k;
      var oldest := rest[0];
      if elapsed - oldest.elapsed >= SPAN {
        best.Record(now, PerSecond(Delivery(bytes - oldest.bytes, elapsed - oldest.elapsed)));
      }
    }

    /** The highest rate recorded in the last five buckets. */
    method Value(now: int) returns (r: real)
      requires Valid() && Until(now)
      modifies best`start, best`index, best.buckets
      ensures Valid() && Until(now) && RecentPeak(best.history, now, MEMORY, r)
    {
      hide Kept;
      r := best.Peak(now);
    }
  }

  /** The receiver's counts do not fall. */
  ghost predicate Follows(history: seq<Mark>, m: Mark) {
    history != [] ==> history[|history| - 1].bytes <= m.bytes && history[|history| - 1].elapsed <= m.elapsed
  }

  lemma {:induction false} Slid(
    history: seq<Mark>, marks: seq<Mark>, n: nat, last: Mark, all: seq<Mark>, rest: seq<Mark>, k: nat)
    requires Kept(history, marks, n) && Follows(history, last) && all == marks + [last] && k < |all| && rest == all[k..]
    requires k > 0 ==> last.elapsed - all[k].elapsed >= SPAN
    requires k + 1 < |all| ==> last.elapsed - all[k + 1].elapsed < SPAN
    ensures Kept(history + [last], rest, n + k)
    ensures last.elapsed - rest[0].elapsed < SPAN <==> NothingOld(history + [last])
    ensures last.elapsed - rest[0].elapsed >= SPAN ==>
      Measured(history + [last], Delivery(last.bytes - rest[0].bytes, last.elapsed - rest[0].elapsed))
  {
    hide Growing, Reference, NothingOld, Measured;
    var longer := history + [last];
    assert all == longer[n..];
    assert rest == longer[n + k..];
    Extend(history, n, last);
    Judge(longer, n + k);
  }

  /** Drops marks from the front while the next is still a span old. */
  method Slide(marks: seq<Mark>, elapsed: nat) returns (kept: seq<Mark>, ghost n: nat)
    requires marks != []
    ensures n < |marks| && kept == marks[n..]
    ensures n > 0 ==> elapsed - marks[n].elapsed >= SPAN
    ensures n + 1 < |marks| ==> elapsed - marks[n + 1].elapsed < SPAN
  {
    kept, n := marks, 0;
    while |kept| > 1 && elapsed - kept[1].elapsed >= SPAN
      invariant n < |marks| && kept == marks[n..]
      invariant n > 0 ==> elapsed - marks[n].elapsed >= SPAN
      decreases |kept|
    {
      kept, n := kept[1..], n + 1;
    }
  }

  /** Bytes and time between the reference mark and the last one. */
  ghost predicate Measured(history: seq<Mark>, kept: Delivery) {
    && history != []
    && exists k: nat :: (Reference(history, k)
      && kept == Delivery(history[|history| - 1].bytes - history[k].bytes,
         history[|history| - 1].elapsed - history[k].elapsed))
  }

  lemma {:induction false} Extend(history: seq<Mark>, n: nat, m: Mark)
    requires Growing(history) && n <= |history| && (n > 0 ==> Reference(history, n))
    requires history != [] ==> history[|history| - 1].bytes <= m.bytes && history[|history| - 1].elapsed <= m.elapsed
    ensures Growing(history + [m]) && (n > 0 ==> m.elapsed - history[n].elapsed >= SPAN)
  {
  }

  /** Where no later mark is a span old, mark n is the reference or nothing is a span old. */
  lemma {:induction false} Judge(history: seq<Mark>, n: nat)
    requires Growing(history) && n < |history|
    requires n > 0 ==> history[|history| - 1].elapsed - history[n].elapsed >= SPAN
    requires n + 1 < |history| ==> history[|history| - 1].elapsed - history[n + 1].elapsed < SPAN
    ensures history[n].bytes <= history[|history| - 1].bytes && history[n].elapsed <= history[|history| - 1].elapsed
    ensures var last := history[|history| - 1];
      if last.elapsed - history[n].elapsed >= SPAN
      then
        && Reference(history, n) && !NothingOld(history)
        && Measured(history, Delivery(last.bytes - history[n].bytes, last.elapsed - history[n].elapsed))
      else n == 0 && NothingOld(history)
  {
    if history[|history| - 1].elapsed - history[n].elapsed >= SPAN { assert Reference(history, n); }
  }
}
