/** The ring of time buckets shared in design by `SlidingCounter` and `Breaker`, as a function of
    the events fed to it, and its exact relation to the plain log of those events. */
module Window {
  import opened GoTime
  import opened EventLog

  /** A window of `window` nanoseconds cut into `n` buckets. */
  datatype Shape = Shape(window: int, n: nat) {
    /** The constructor rounds n up to 1; a bucket narrower than a nanosecond divides by zero. */
    predicate Valid() {
      1 <= n <= window
    }

    function Width(): (w: int)
      requires Valid()
      ensures w >= 1 && w * n <= window
      ensures window % n == 0 ==> w * n == window
    {
      PartsOf(window, n);
      window / n
    }

    /** The slot that time `t` falls in: an index by absolute time. */
    function Index(t: Time): (i: nat)
      requires Valid()
      ensures i < n
    {
      var i := TruncMod(TruncDiv(t, Width()), n);
      TruncModRange(TruncDiv(t, Width()), n);
      if i < 0 then i + n else i
    }

    function Start(t: Time): Time
      requires Valid()
    {
      Truncate(t, Width())
    }

    /** Slot boundaries agree with bucket starts. */
    predicate Regular()
      requires Valid()
    {
      n == 1 || Aligned(Width())
    }

    /** Moreover the buckets tile the window without remainder. */
    predicate Tiled()
      requires Valid()
    {
      Regular() && window % n == 0
    }
  }

  lemma IndexSince1970(sh: Shape, t: Time)
    requires sh.Valid() && 0 <= t
    ensures sh.Index(t) == (t / sh.Width()) % sh.n
  {
    TruncModRange(t / sh.Width(), sh.n);
  }

  lemma WidthFits(sh: Shape)
    requires sh.Valid()
    ensures sh.Width() <= sh.window
  {
    hide Shape.Width;
    AtLeastOne(sh.Width(), sh.n);
  }

  lemma StartIsRecent(sh: Shape, t: Time)
    requires sh.Valid()
    ensures t - sh.window < sh.Start(t) <= t
  {
    WidthFits(sh);
  }

  datatype Slot = Slot(start: Time, value: real)

  function Empty(n: nat): seq<Slot> {
    seq(n, i => Slot(ZERO_TIME, 0.0))
  }

  /** One Add: recycle the slot when its start is stale, then accumulate. */
  function Add(sh: Shape, ring: seq<Slot>, now: Time, v: real): seq<Slot>
    requires sh.Valid() && |ring| == sh.n
  {
    var i := sh.Index(now);
    var kept := if ring[i].start == sh.Start(now) then ring[i].value else 0.0;
    ring[i := Slot(sh.Start(now), kept + v)]
  }

  /** Sum of the first k slots that start after the cutoff. */
  function SumUpTo(ring: seq<Slot>, cutoff: Time, k: nat): real
    requires k <= |ring|
  {
    if k == 0 then 0.0
    else SumUpTo(ring, cutoff, k - 1) + (if ring[k - 1].start > cutoff then ring[k - 1].value else 0.0)
  }

  lemma {:induction false} EmptySum(n: nat, cutoff: Time, k: nat)
    requires k <= n
    ensures SumUpTo(Empty(n), cutoff, k) == 0.0
  {
    if k > 0 {
      EmptySum(n, cutoff, k - 1);
    }
  }

  function Sum(sh: Shape, ring: seq<Slot>, now: Time): real {
    SumUpTo(ring, now - sh.window, |ring|)
  }

  /** The ring after feeding it a log. */
  function Replay(sh: Shape, log: seq<Event>): (ring: seq<Slot>)
    requires sh.Valid()
    ensures |ring| == sh.n
  {
    if log == [] then Empty(sh.n)
    else Add(sh, Replay(sh, Init(log)), Last(log).at, Last(log).weight)
  }

  /** `e` has been overwritten: a later bucket of `log` landed in its slot. */
  ghost predicate Superseded(sh: Shape, log: seq<Event>, e: Event)
    requires sh.Valid()
  {
    exists x :: x in log && sh.Index(x.at) == sh.Index(e.at) && sh.Start(x.at) > sh.Start(e.at)
  }

  /** The events in buckets that are younger than the window. */
  ghost function InWindow(sh: Shape, now: Time): Event -> bool
    requires sh.Valid()
  {
    (e: Event) => sh.Start(e.at) > now - sh.window
  }

  /** The events the ring still counts at `now`. */
  ghost function Counted(sh: Shape, log: seq<Event>, now: Time): Event -> bool
    requires sh.Valid()
  {
    (e: Event) => sh.Start(e.at) > now - sh.window && !Superseded(sh, log, e)
  }

  ghost function InSlot(sh: Shape, i: nat, start: Time): Event -> bool
    requires sh.Valid()
  {
    (e: Event) => sh.Index(e.at) == i && sh.Start(e.at) == start
  }

  /** Slot i holds the events of the latest bucket that maps to it, and nothing else. */
  ghost predicate SlotHolds(sh: Shape, log: seq<Event>, s: Slot, i: nat)
    requires sh.Valid()
  {
    && s.value == Weight(log, InSlot(sh, i, s.start))
    && (forall e :: e in log && sh.Index(e.at) == i ==> sh.Start(e.at) <= s.start)
    && ((exists e :: e in log && sh.Index(e.at) == i) ==>
          exists e :: e in log && sh.Index(e.at) == i && sh.Start(e.at) == s.start)
  }

  lemma {:induction false} SlotsHold(sh: Shape, log: seq<Event>)
    requires sh.Valid() && Ordered(log)
    ensures forall i :: 0 <= i < sh.n ==> SlotHolds(sh, log, Replay(sh, log)[i], i)
  {
    if log != [] {
      var before, e := Init(log), Last(log);
      assert log == before + [e];
      SlotsHold(sh, before);
      var ring := Replay(sh, before);
      forall i | 0 <= i < sh.n
        ensures SlotHolds(sh, log, Replay(sh, log)[i], i)
      {
        SlotHoldsStep(sh, before, e, ring, i);
      }
    }
  }

  lemma SlotHoldsStep(sh: Shape, before: seq<Event>, e: Event, ring: seq<Slot>, i: nat)
    requires sh.Valid() && Ordered(before + [e]) && |ring| == sh.n && i < sh.n
    requires SlotHolds(sh, before, ring[i], i)
    ensures SlotHolds(sh, before + [e], Add(sh, ring, e.at, e.weight)[i], i)
  {
    var s, s' := ring[i], Add(sh, ring, e.at, e.weight)[i];
    WeightOfAppend(before, e, InSlot(sh, i, s'.start));
    assert e in before + [e];
    if sh.Index(e.at) != i {
      OtherSlotHolds(sh, before, e, s, i);
    } else if s'.start != s.start {
      FreshSlot(sh, before, e, s, i);
    }
  }

  lemma OtherSlotHolds(sh: Shape, before: seq<Event>, e: Event, s: Slot, i: nat)
    requires sh.Valid() && SlotHolds(sh, before, s, i) && sh.Index(e.at) != i
    ensures SlotHolds(sh, before + [e], s, i)
  {
    WeightOfAppend(before, e, InSlot(sh, i, s.start));
    if x :| x in before && sh.Index(x.at) == i && sh.Start(x.at) == s.start {
      assert x in before + [e];
    }
  }

  /** Nothing recorded before belongs to the bucket that recycles slot i. */
  lemma FreshSlot(sh: Shape, before: seq<Event>, e: Event, s: Slot, i: nat)
    requires sh.Valid() && Ordered(before + [e]) && SlotHolds(sh, before, s, i)
    requires sh.Index(e.at) == i && sh.Start(e.at) != s.start
    ensures Weight(before, InSlot(sh, i, sh.Start(e.at))) == 0.0
    ensures forall x :: x in before && sh.Index(x.at) == i ==> sh.Start(x.at) < sh.Start(e.at)
  {
    if y :| y in before && sh.Index(y.at) == i && sh.Start(y.at) == s.start {
      EarlierStart(sh, before, e, y);
    }
    WeightNone(before, InSlot(sh, i, sh.Start(e.at)));
  }

  lemma EarlierStart(sh: Shape, before: seq<Event>, e: Event, y: Event)
    requires sh.Valid() && Ordered(before + [e]) && y in before
    ensures sh.Start(y.at) <= sh.Start(e.at)
  {
    var k :| 0 <= k < |before| && before[k] == y;
    assert (before + [e])[k] == y && (before + [e])[|before|] == e;
    TruncateOrder(y.at, e.at, sh.Width());
  }

  /** For every ordered log, every shape and every clock reading, the ring's sum is exactly the
      weight of the events in the window that no later bucket has overwritten. */
  lemma RingCountsExactly(sh: Shape, log: seq<Event>, now: Time)
    requires sh.Valid() && Ordered(log)
    ensures Sum(sh, Replay(sh, log), now) == Weight(log, Counted(sh, log, now))
  {
    var ring := Replay(sh, log);
    SlotsHold(sh, log);
    CountSlots(sh, log, ring, now, sh.n);
    WeightSame(log, CountedBelow(sh, log, now, sh.n), Counted(sh, log, now));
  }

  ghost function CountedBelow(sh: Shape, log: seq<Event>, now: Time, k: nat): Event -> bool
    requires sh.Valid()
  {
    (e: Event) => sh.Index(e.at) < k && sh.Start(e.at) > now - sh.window && !Superseded(sh, log, e)
  }

  lemma {:induction false} CountSlots(sh: Shape, log: seq<Event>, ring: seq<Slot>, now: Time, k: nat)
    requires sh.Valid() && |ring| == sh.n && k <= sh.n
    requires forall i :: 0 <= i < sh.n ==> SlotHolds(sh, log, ring[i], i)
    ensures SumUpTo(ring, now - sh.window, k) == Weight(log, CountedBelow(sh, log, now, k))
  {
    hide Shape.Index, Shape.Start;
    if k == 0 {
      WeightNone(log, CountedBelow(sh, log, now, 0));
    } else {
      CountSlots(sh, log, ring, now, k - 1);
      var i, s := k - 1, ring[k - 1];
      assert SlotHolds(sh, log, s, i);
      var mine := if s.start > now - sh.window then InSlot(sh, i, s.start) else (e: Event) => false;
      forall e | e in log && sh.Index(e.at) == i
        ensures Superseded(sh, log, e) <==> sh.Start(e.at) != s.start
      {
        var x :| x in log && sh.Index(x.at) == i && sh.Start(x.at) == s.start;
      }
      WeightSplit(log, CountedBelow(sh, log, now, k - 1), mine, CountedBelow(sh, log, now, k));
      if s.start <= now - sh.window {
        WeightNone(log, mine);
      }
    }
  }
}
