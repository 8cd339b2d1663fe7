/** The shared sliding-window counter. */
module SlidingCounters {
  import opened GoTime
  import opened EventLog
  import opened Window
  import opened WindowExactness

  /** Events counted over a rolling window, in buckets that are updated in place.

      `log` is what the counter stands for: everything added since the last Reset.  The clock is
      read under the lock, so each method takes the reading as `now`. */
  class SlidingCounter {
    const window: int
    const width: int
    const buckets: array<Slot>
    ghost var log: seq<Event>

    ghost function Shape(): Window.Shape {
      Window.Shape(window, buckets.Length)
    }

    /** A counter whose buckets have no width cannot be added to and stays empty. */
    ghost predicate Valid()
      reads this, buckets
    {
      && buckets.Length >= 1
      && width == TruncDiv(window, buckets.Length)
      && if Shape().Valid() then buckets[..] == Replay(Shape(), log) else log == [] && buckets[..] == Empty(buckets.Length)
    }

    /** Takes any window; `n` below 1 means one bucket.  The buckets have a positive width exactly
        when there are no more of them than nanoseconds; Add divides by a zero width. */
    constructor (window: int, n: int)
      ensures Valid() && fresh(buckets)
      ensures Shape() == Window.Shape(window, if n < 1 then 1 else n)
      ensures width >= 1 <==> Shape().Valid()
      ensures log == []
    {
      var m: nat := if n < 1 then 1 else n;
      this.window := window;
      this.width := TruncDiv(window, m);
      this.buckets := new Slot[m](i => Slot(ZERO_TIME, 0.0));
      this.log := [];
      new;
      assert buckets[..] == Empty(m);
      WidthPositiveIff(window, m);
    }

    static lemma WidthPositiveIff(window: int, n: int)
      requires n >= 1
      ensures TruncDiv(window, n) >= 1 <==> 1 <= window && n <= window
    {}

    /** Records v at the current time. */
    method Add(v: real, now: Time)
      requires Valid() && Shape().Valid()
      modifies this, buckets
      ensures Valid()
      ensures log == old(log) + [Event(now, v)]
    {
      hide Window.Shape.Index, Window.Shape.Start, Window.Shape.Width;
      var i := BucketLocked(now);
      buckets[i] := buckets[i].(value := buckets[i].value + v);
      log := log + [Event(now, v)];
      assert Init(log) == old(log);
      assert buckets[..] == Window.Add(Shape(), old(buckets[..]), now, v);
    }

    /** The bucket for `now`, recycled if it has expired. */
    method BucketLocked(now: Time) returns (i: nat)
      requires Valid() && Shape().Valid()
      modifies buckets
      ensures i == Shape().Index(now) < buckets.Length
      ensures buckets[i].start == Shape().Start(now)
      ensures buckets[i].value == if old(buckets[i].start) == Shape().Start(now) then old(buckets[i].value) else 0.0
      ensures forall j :: 0 <= j < buckets.Length && j != i ==> buckets[j] == old(buckets[j])
    {
      var idx := TruncMod(TruncDiv(now, width), buckets.Length);
      TruncModRange(TruncDiv(now, width), buckets.Length);
      if idx < 0 {
        idx := idx + buckets.Length;
      }
      i := idx;
      var start := Truncate(now, width);
      if buckets[i].start != start {
        buckets[i] := Slot(start, 0.0);
      }
    }

    /** The total over the window, for any clock reading.  When the readings were in order it is
        exactly the weight of the events still counted; between the two ages for regular shapes, and
        the weight of the window itself for tiled ones. */
    method Sum(now: Time) returns (total: real)
      requires Valid()
      ensures !Shape().Valid() ==> total == 0.0
      ensures Shape().Valid() ==> total == Window.Sum(Shape(), Replay(Shape(), log), now)
      ensures Shape().Valid() && Ordered(log) ==> total == Weight(log, Counted(Shape(), log, now))
      ensures Shape().Valid() && Ordered(log) && NonNegative(log) ==>
                && total <= Weight(log, AgeBelow(now, window))
                && (Shape().Regular() && Past(log, now) ==> Weight(log, AgeAtMost(now, (buckets.Length - 1) * width)) <= total)
      ensures Shape().Valid() && Ordered(log) && Past(log, now) && Shape().Tiled() ==>
                total == Weight(log, InWindow(Shape(), now))
    {
      var cutoff := now - window;
      total := 0.0;
      for i := 0 to buckets.Length
        invariant total == SumUpTo(buckets[..], cutoff, i)
      {
        if buckets[i].start > cutoff {
          total := total + buckets[i].value;
        }
      }
      if Shape().Valid() {
        Accuracy(now);
      } else {
        EmptySum(buckets.Length, cutoff, buckets.Length);
      }
    }

    /** What the ring says about the log. */
    lemma Accuracy(now: Time)
      requires Valid() && Shape().Valid()
      ensures var total := Window.Sum(Shape(), Replay(Shape(), log), now);
              && (Ordered(log) ==> total == Weight(log, Counted(Shape(), log, now)))
              && (Ordered(log) && NonNegative(log) ==>
                    && total <= Weight(log, AgeBelow(now, window))
                    && (Shape().Regular() && Past(log, now) ==>
                          Weight(log, AgeAtMost(now, (buckets.Length - 1) * width)) <= total))
              && (Ordered(log) && Past(log, now) && Shape().Tiled() ==> total == Weight(log, InWindow(Shape(), now)))
    {
      if Ordered(log) {
        RingCountsExactly(Shape(), log, now);
        if NonNegative(log) {
          RingBounds(Shape(), log, now);
        }
        if Past(log, now) && Shape().Tiled() {
          RingIsExact(Shape(), log, now);
        }
      }
    }

    /** Clears every bucket. */
    method Reset()
      requires Valid()
      modifies this, buckets
      ensures Valid()
      ensures log == []
    {
      for i := 0 to buckets.Length
        invariant forall j :: 0 <= j < i ==> buckets[j] == Slot(ZERO_TIME, 0.0)
      {
        buckets[i] := Slot(ZERO_TIME, 0.0);
      }
      log := [];
      assert buckets[..] == Empty(buckets.Length);
    }
  }
}
