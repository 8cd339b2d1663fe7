/** When does the ring agree with the log?  The bounds that always hold, the exact condition on
    the configuration for the sharp ones, and inputs that fail outside that condition. */
module WindowExactness {
  import opened GoTime
  import opened EventLog
  import opened Window

  ghost function AgeAtMost(now: Time, age: int): Event -> bool {
    (e: Event) => now - e.at <= age
  }

  ghost function AgeBelow(now: Time, age: int): Event -> bool {
    (e: Event) => now - e.at < age
  }

  /** With a regular shape, a bucket is overwritten only n buckets later. */
  lemma OverwriteGap(sh: Shape, a: Time, b: Time)
    requires sh.Valid() && sh.Regular() && 0 <= a && 0 <= b
    requires sh.Index(a) == sh.Index(b) && sh.Start(a) < sh.Start(b)
    ensures sh.Start(a) + sh.n * sh.Width() <= sh.Start(b)
  {
    var w := sh.Width();
    if sh.n == 1 {
      TruncateOrder(a, b, w);
    } else {
      IndexSince1970(sh, a);
      IndexSince1970(sh, b);
      TruncateAligned(a, w);
      TruncateAligned(b, w);
      AlignedGap(a / w, b / w, w, sh.n);
    }
  }

  lemma AlignedGap(p: int, q: int, w: int, n: int)
    requires w > 0 && n > 0 && p % n == q % n && p * w < q * w
    ensures p * w + n * w <= q * w
  {
    BucketOrder(p, q, w);
    SameResidueGap(p, q, n);
    assert (p + n) * w <= q * w;
  }

  lemma BucketOrder(p: int, q: int, w: int)
    requires w > 0 && p * w < q * w
    ensures p < q
  {}

  /** No event of the last n-1 bucket widths is lost. */
  lemma RecentIsCounted(sh: Shape, log: seq<Event>, now: Time, e: Event)
    requires sh.Valid() && sh.Regular() && Past(log, now)
    requires e in log && AgeAtMost(now, (sh.n - 1) * sh.Width())(e)
    ensures Counted(sh, log, now)(e)
  {
    hide Shape.Index, Shape.Start, Shape.Width;
    StartNearby(sh, e.at);
    if x :| x in log && sh.Index(x.at) == sh.Index(e.at) && sh.Start(x.at) > sh.Start(e.at) {
      OverwriteGap(sh, e.at, x.at);
      StartNearby(sh, x.at);
      WidthsAdd(sh.n, sh.Width());
      assert false;
    }
    WidthsAdd(sh.n, sh.Width());
  }

  lemma StartNearby(sh: Shape, t: Time)
    requires sh.Valid()
    ensures sh.Start(t) <= t < sh.Start(t) + sh.Width()
  {}

  lemma WidthsAdd(n: nat, w: int)
    ensures (n - 1) * w + w == n * w == w * n
  {}

  /** The ring never counts more than everything younger than the window. */
  lemma NothingOldCounted(sh: Shape, log: seq<Event>, now: Time)
    requires sh.Valid() && Ordered(log) && NonNegative(log)
    ensures Sum(sh, Replay(sh, log), now) <= Weight(log, AgeBelow(now, sh.window))
  {
    RingCountsExactly(sh, log, now);
    forall e: Event
      ensures sh.Start(e.at) <= e.at
    {
      StartNearby(sh, e.at);
    }
    hide Shape.Index, Shape.Start, Replay, Sum;
    WeightMonotone(log, Counted(sh, log, now), AgeBelow(now, sh.window));
  }

  /** With a regular shape it counts everything that is n-1 widths old or less. */
  lemma RecentCounted(sh: Shape, log: seq<Event>, now: Time, age: int)
    requires sh.Valid() && sh.Regular() && Ordered(log) && Past(log, now) && NonNegative(log)
    requires age <= (sh.n - 1) * sh.Width()
    ensures Weight(log, AgeAtMost(now, age)) <= Sum(sh, Replay(sh, log), now)
  {
    RingCountsExactly(sh, log, now);
    hide Shape.Index, Shape.Start, Shape.Width, Shape.Regular, Replay, Sum;
    forall e | e in log && AgeAtMost(now, age)(e)
      ensures Counted(sh, log, now)(e)
    {
      RecentIsCounted(sh, log, now, e);
    }
    WeightMonotone(log, AgeAtMost(now, age), Counted(sh, log, now));
  }

  /** The ring counts at most everything younger than the window, for every shape, and at least
      everything of age (n-1)*width for regular ones. */
  lemma RingBounds(sh: Shape, log: seq<Event>, now: Time)
    requires sh.Valid() && Ordered(log) && NonNegative(log)
    ensures Sum(sh, Replay(sh, log), now) <= Weight(log, AgeBelow(now, sh.window))
    ensures sh.Regular() && Past(log, now) ==>
              Weight(log, AgeAtMost(now, (sh.n - 1) * sh.Width())) <= Sum(sh, Replay(sh, log), now)
  {
    NothingOldCounted(sh, log, now);
    if sh.Regular() && Past(log, now) {
      RecentCounted(sh, log, now, (sh.n - 1) * sh.Width());
    }
  }

  /** In a tiled ring nothing in the window has been overwritten. */
  lemma WindowKept(sh: Shape, log: seq<Event>, now: Time, e: Event)
    requires sh.Valid() && sh.Tiled() && Past(log, now) && e in log && InWindow(sh, now)(e)
    ensures !Superseded(sh, log, e)
  {
    hide Shape.Index, Shape.Start, Shape.Width;
    WidthsAdd(sh.n, sh.Width());
    if x :| x in log && sh.Index(x.at) == sh.Index(e.at) && sh.Start(x.at) > sh.Start(e.at) {
      OverwriteGap(sh, e.at, x.at);
      StartNearby(sh, x.at);
      assert false;
    }
  }

  /** A tiled ring counts exactly the events whose bucket is younger than the window. */
  lemma RingIsExact(sh: Shape, log: seq<Event>, now: Time)
    requires sh.Valid() && sh.Tiled() && Ordered(log) && Past(log, now)
    ensures Sum(sh, Replay(sh, log), now) == Weight(log, InWindow(sh, now))
  {
    RingCountsExactly(sh, log, now);
    forall e | e in log && InWindow(sh, now)(e)
      ensures !Superseded(sh, log, e)
    {
      WindowKept(sh, log, now, e);
    }
    WeightSame(log, Counted(sh, log, now), InWindow(sh, now));
  }

  /** For aligned widths "younger than the window" is a statement about bucket numbers. */
  lemma InWindowIsBucketNumber(sh: Shape, now: Time, e: Event)
    requires sh.Valid() && sh.Tiled() && Aligned(sh.Width())
    ensures InWindow(sh, now)(e) <==> e.at / sh.Width() > now / sh.Width() - sh.n
  {
    var w := sh.Width();
    var p, q := e.at / w, now / w;
    assert sh.n * w == sh.window;
    TruncateAligned(e.at, w);
    assert now == q * w + now % w;
    assert (q - sh.n) * w == q * w - sh.window;
    if p > q - sh.n {
      assert (q - sh.n + 1) * w <= p * w;
    } else {
      assert p * w <= (q - sh.n) * w;
    }
  }

  // ----- the conditions are necessary -----

  /** Two unit events in the same slot; the second one recycles the first. */
  function Overwriting(second: Time): seq<Event> {
    [Event(0, 1.0), Event(second, 1.0)]
  }

  lemma OverwritingCounts(sh: Shape, second: Time, p: Event -> bool)
    requires sh.Valid() && 0 <= second
    requires sh.Index(second) == sh.Index(0) && sh.Start(0) < sh.Start(second)
    requires p(Event(0, 1.0)) && p(Event(second, 1.0))
    ensures Ordered(Overwriting(second)) && Past(Overwriting(second), second)
    ensures Sum(sh, Replay(sh, Overwriting(second)), second) <= 1.0
    ensures Weight(Overwriting(second), p) == 2.0
  {
    hide Shape.Index, Shape.Start, Shape.Width, Replay, SumUpTo;
    var a, b := Event(0, 1.0), Event(second, 1.0);
    var log, c := Overwriting(second), Counted(sh, Overwriting(second), second);
    assert log == [a] + [b] && [a] == [] + [a];
    WeightOfAppend([a], b, p);
    WeightOfAppend([], a, p);
    RingCountsExactly(sh, log, second);
    assert b in log && Superseded(sh, log, a);
    WeightOfAppend([a], b, c);
    WeightOfAppend([], a, c);
  }

  /** The instant just after 1970 at which a misaligned width starts a new bucket inside slot 0. */
  function MidSlot(sh: Shape): Time
    requires sh.Valid()
  {
    sh.Width() - (0 - ZERO_TIME) % sh.Width()
  }

  lemma MisalignedLoses(sh: Shape)
    requires sh.Valid() && !sh.Regular()
    ensures 0 < MidSlot(sh) < sh.Width()
    ensures sh.Index(MidSlot(sh)) == sh.Index(0)
    ensures sh.Start(0) == MidSlot(sh) - sh.Width() && sh.Start(MidSlot(sh)) == MidSlot(sh)
  {
    var w := sh.Width();
    var r := (0 - ZERO_TIME) % w;
    if r == 0 {
      var q := (0 - ZERO_TIME) / w;
      DivModUnique(ZERO_TIME, w, -q, 0);
      assert false;
    }
    var q := (0 - ZERO_TIME) / w;
    DivModUnique(w - r - ZERO_TIME, w, q + 1, 0);
    DivModUnique(w - r, w, 0, w - r);
    DivModUnique(0, w, 0, 0);
  }

  /** The lower bound of `RingBounds` holds for every log exactly when the shape is regular. */
  lemma RecentEventsKeptIff(sh: Shape)
    requires sh.Valid()
    ensures sh.Regular() <==>
            forall log: seq<Event>, now: Time :: Ordered(log) && Past(log, now) && NonNegative(log) ==>
              Weight(log, AgeAtMost(now, (sh.n - 1) * sh.Width())) <= Sum(sh, Replay(sh, log), now)
  {
    if sh.Regular() {
      forall log: seq<Event>, now: Time | Ordered(log) && Past(log, now) && NonNegative(log)
        ensures Weight(log, AgeAtMost(now, (sh.n - 1) * sh.Width())) <= Sum(sh, Replay(sh, log), now)
      {
        RingBounds(sh, log, now);
      }
    } else {
      AtLeastOne(sh.Width(), sh.n - 1);
      RecentLost(sh, (sh.n - 1) * sh.Width());
    }
  }

  lemma RecentLost(sh: Shape, age: int)
    requires sh.Valid() && !sh.Regular() && age >= sh.Width()
    ensures var now := MidSlot(sh);
            var log := Overwriting(now);
            && Ordered(log) && Past(log, now) && NonNegative(log)
            && Weight(log, AgeAtMost(now, age)) > Sum(sh, Replay(sh, log), now)
  {
    MisalignedLoses(sh);
    hide Shape.Index, Shape.Start, Shape.Width, Replay, Sum, MidSlot;
    var now := MidSlot(sh);
    OverwritingCounts(sh, now, AgeAtMost(now, age));
  }

  /** The ring equals the log's window for every log exactly when the shape is tiled. */
  lemma RingExactIff(sh: Shape)
    requires sh.Valid()
    ensures sh.Tiled() <==>
            forall log: seq<Event>, now: Time :: Ordered(log) && Past(log, now) ==>
              Sum(sh, Replay(sh, log), now) == Weight(log, InWindow(sh, now))
  {
    if sh.Tiled() {
      forall log: seq<Event>, now: Time | Ordered(log) && Past(log, now)
        ensures Sum(sh, Replay(sh, log), now) == Weight(log, InWindow(sh, now))
      {
        RingIsExact(sh, log, now);
      }
    } else {
      var now := LosingTime(sh);
      OverwritingCounts(sh, now, InWindow(sh, now));
    }
  }

  /** A time at which the second of two events overwrites the first inside the window. */
  lemma LosingTime(sh: Shape) returns (second: Time)
    requires sh.Valid() && !sh.Tiled()
    ensures 0 <= second && sh.Index(second) == sh.Index(0) && sh.Start(0) < sh.Start(second)
    ensures InWindow(sh, second)(Event(0, 1.0)) && InWindow(sh, second)(Event(second, 1.0))
  {
    if !sh.Regular() {
      MisalignedLoses(sh);
      second := MidSlot(sh);
      TwoBucketsFit(sh);
    } else {
      second := sh.n * sh.Width();
      SlotComesRound(sh);
      Untiled(sh);
    }
  }

  lemma TwoBucketsFit(sh: Shape)
    requires sh.Valid() && sh.n >= 2
    ensures sh.window >= 2 * sh.Width()
  {
    assert sh.Width() * sh.n >= sh.Width() * 2;
  }

  lemma Untiled(sh: Shape)
    requires sh.Valid() && sh.window % sh.n != 0
    ensures sh.n > 1 && sh.n * sh.Width() < sh.window
  {
    assert sh.window == sh.Width() * sh.n + sh.window % sh.n;
  }

  lemma SlotComesRound(sh: Shape)
    requires sh.Valid() && Aligned(sh.Width())
    ensures sh.Index(sh.n * sh.Width()) == sh.Index(0)
    ensures sh.Start(0) == 0 && sh.Start(sh.n * sh.Width()) == sh.n * sh.Width()
  {
    var n, w := sh.n, sh.Width();
    DivModUnique(n * w, w, n, 0);
    DivModUnique(n, n, 1, 0);
    IndexSince1970(sh, n * w);
    IndexSince1970(sh, 0);
    TruncateAligned(n * w, w);
    TruncateAligned(0, w);
  }

  /** Two configurations a caller could write: the default one is tiled, seven-second buckets are
      not even regular. */
  lemma SevenSecondBucketsAreIrregular()
    ensures Shape(10 * SECOND, 10).Valid() && Shape(10 * SECOND, 10).Tiled()
    ensures Shape(70 * SECOND, 10).Valid() && !Shape(70 * SECOND, 10).Regular()
  {
    DivModUnique(ZERO_TIME, SECOND, -62_135_596_800, 0);
    DivModUnique(ZERO_TIME, 7 * SECOND, -8_876_513_829, 3 * SECOND);
  }
}
