/** Deadlines across hops: the client-side budget and the server-side timeout. */
module Deadlines {
  import opened Wrappers
  import opened GoTime
  import opened Classify

  /** A context, as far as time is concerned. */
  datatype Ctx = Ctx(deadline: Option<Time>)

  /** `context.WithTimeout` at `now`: a child never outlives its parent. */
  function WithTimeout(ctx: Ctx, now: Time, d: int): Ctx {
    match ctx.deadline
    case None => Ctx(Some(now + d))
    case Some(dl) => Ctx(Some(if dl < now + d then dl else now + d))
  }

  /** The error for a call that cannot finish in time. */
  const INSUFFICIENT := NewError(DeadlineExceeded, Err(Other, []))

  datatype Derived = Child(ctx: Ctx) | Refused(err: Err)

  datatype Budget = Budget(buffer: int, minimum: int) {
    /** `Derive`.  The clock is read twice: once to see what remains (`now`), once inside
        WithTimeout (`later`). */
    function Derive(ctx: Ctx, now: Time, later: Time): Derived {
      match ctx.deadline
      case None => Child(ctx)
      case Some(dl) =>
        var share := (dl - now) - buffer;
        if share < minimum then Refused(INSUFFICIENT) else Child(WithTimeout(ctx, later, share))
    }
  }

  /** The Timeout interceptor with limit d; it too reads the clock twice. */
  function Timeout(d: int, ctx: Ctx, now: Time, later: Time): Ctx {
    if d <= 0 then ctx
    else if ctx.deadline.Some? && ctx.deadline.value - now <= d then ctx
    else WithTimeout(ctx, later, d)
  }

  /** Timeout only ever shortens, and what it adds is at most d. */
  lemma TimeoutShortens(d: int, ctx: Ctx, now: Time, later: Time)
    requires now <= later
    ensures ctx.deadline.Some? ==>
              Timeout(d, ctx, now, later).deadline.Some? && Timeout(d, ctx, now, later).deadline.value <= ctx.deadline.value
    ensures d > 0 ==>
              Timeout(d, ctx, now, later).deadline.Some? && Timeout(d, ctx, now, later).deadline.value <= later + d
  {}

  /** A limit that is positive leaves the earlier of the caller's deadline and the limit counted from
      the second reading, whatever the first reading showed; any other limit changes nothing. */
  lemma TimeoutExactly(d: int, ctx: Ctx, now: Time, later: Time)
    requires now <= later
    ensures d <= 0 ==> Timeout(d, ctx, now, later) == ctx
    ensures d > 0 ==>
              var out := Timeout(d, ctx, now, later).deadline;
              && out.Some?
              && (out.value == later + d || ctx.deadline == out)
              && out.value <= later + d && (ctx.deadline.Some? ==> out.value <= ctx.deadline.value)
  {}

  /** Derive goes on exactly when Buffer and Minimum are left at its first reading, and refuses with
      an error that everyone takes for a deadline; it gives no deadline to a call that has none. */
  lemma DeriveGoesOnIff(b: Budget, dl: Time, now: Time, later: Time)
    ensures b.Derive(Ctx(Some(dl)), now, later).Child? <==> dl - now >= b.buffer + b.minimum
    ensures var r := b.Derive(Ctx(Some(dl)), now, later);
            r.Refused? ==> Decides(Links(r.err), DeadlineExceeded) && CodeOf(r.err) == DeadlineExceeded
    ensures b.Derive(Ctx(None), now, later) == Child(Ctx(None))
  {
    assert Links(INSUFFICIENT)[0] == Coded(DeadlineExceeded);
    CodeDecides(INSUFFICIENT, DeadlineExceeded);
  }

  /** A derived deadline is earlier by Buffer, less whatever passed between the two readings; it
      is strictly earlier exactly when that pause is shorter than Buffer. */
  lemma DeriveDrops(b: Budget, dl: Time, now: Time, later: Time)
    requires now <= later && dl - now >= b.buffer + b.minimum
    ensures var out := b.Derive(Ctx(Some(dl)), now, later);
            && out.Child? && out.ctx.deadline.Some?
            && out.ctx.deadline.value == dl - (if b.buffer > later - now then b.buffer - (later - now) else 0)
            && (out.ctx.deadline.value < dl <==> later - now < b.buffer)
  {}

  /** A pause of 100 with a Buffer of 50: the derived deadline is not earlier at all. */
  lemma LongPauseDropsNothing()
    ensures Budget(50, 20).Derive(Ctx(Some(1000)), 0, 100) == Child(Ctx(Some(1000)))
  {}

  // ----- a chain of hops -----

  /** One service on the way: its Timeout and its deadline budget, and its clock readings.  Timeout
      reads `a` and `b`, then Derive reads `c` and `d`. */
  datatype Hop = Hop(limit: int, budget: Budget, a: Time, b: Time, c: Time, d: Time) {
    predicate Ordered() {
      a <= b <= c <= d
    }

    /** How long Derive paused between its two readings. */
    function Pause(): int {
      d - c
    }

    function Through(ctx: Ctx): Derived {
      budget.Derive(Timeout(limit, ctx, a, b), c, d)
    }
  }

  /** The context that leaves the last hop, if every hop agreed to go on. */
  function Chain(ctx: Ctx, hops: seq<Hop>): Option<Ctx> {
    if hops == [] then Some(ctx)
    else
      match Chain(ctx, hops[..|hops| - 1])
      case None => None
      case Some(inbound) =>
        match hops[|hops| - 1].Through(inbound)
        case Refused(_) => None
        case Child(out) => Some(out)
  }

  function Pauses(hops: seq<Hop>): int {
    if hops == [] then 0 else Pauses(hops[..|hops| - 1]) + hops[|hops| - 1].Pause()
  }

  function Buffers(hops: seq<Hop>): int {
    if hops == [] then 0 else Buffers(hops[..|hops| - 1]) + hops[|hops| - 1].budget.buffer
  }

  /** One hop after an inbound deadline that is at most `bound`. */
  lemma OneHop(inbound: Ctx, hop: Hop, bound: int)
    requires hop.Ordered() && inbound.deadline.Some? && inbound.deadline.value <= bound
    requires hop.Through(inbound).Child?
    ensures var out := hop.Through(inbound).ctx.deadline;
            out.Some? && out.value <= bound - hop.budget.buffer + hop.Pause()
    ensures bound - hop.c >= hop.budget.buffer + hop.budget.minimum
  {
    TimeoutShortens(hop.limit, inbound, hop.a, hop.b);
    DeriveGoesOnIff(hop.budget, Timeout(hop.limit, inbound, hop.a, hop.b).deadline.value, hop.c, hop.d);
    DeriveDrops(hop.budget, Timeout(hop.limit, inbound, hop.a, hop.b).deadline.value, hop.c, hop.d);
  }

  lemma {:induction false} ChainDeadline(D: Time, hops: seq<Hop>)
    requires forall i :: 0 <= i < |hops| ==> hops[i].Ordered()
    requires Chain(Ctx(Some(D)), hops).Some?
    ensures var out := Chain(Ctx(Some(D)), hops).value.deadline;
            out.Some? && out.value <= D - Buffers(hops) + Pauses(hops)
  {
    if hops != [] {
      var before, hop := hops[..|hops| - 1], hops[|hops| - 1];
      ChainDeadline(D, before);
      OneHop(Chain(Ctx(Some(D)), before).value, hop, D - Buffers(before) + Pauses(before));
    }
  }

  /** Along any chain of hops that all agreed to go on, each with a budget of its own, the deadline
      has dropped by all their Buffers (less the pauses), and the last hop still had them all left,
      and its own Minimum. */
  lemma HopsLeaveRoom(D: Time, hops: seq<Hop>)
    requires hops != [] && forall i :: 0 <= i < |hops| ==> hops[i].Ordered()
    requires Chain(Ctx(Some(D)), hops).Some?
    ensures var last := hops[|hops| - 1];
            D - last.c >= Buffers(hops) + last.budget.minimum - Pauses(hops[..|hops| - 1])
  {
    var before, hop := hops[..|hops| - 1], hops[|hops| - 1];
    ChainDeadline(D, before);
    OneHop(Chain(Ctx(Some(D)), before).value, hop, D - Buffers(before) + Pauses(before));
  }

  /** The readings of a chain that starts at t follow each other; hops may pause anywhere. */
  ghost predicate InTurn(t: Time, hops: seq<Hop>) {
    && (forall i :: 0 <= i < |hops| ==> hops[i].Ordered())
    && (forall i :: 0 <= i < |hops| ==> t <= hops[i].a)
    && (forall i, j :: 0 <= i < j < |hops| ==> hops[i].d <= hops[j].a)
  }

  /** Pauses are disjoint stretches of the time spent so far. */
  lemma {:induction false} PausesFit(t: Time, hops: seq<Hop>)
    requires InTurn(t, hops)
    ensures 0 <= Pauses(hops) <= if hops == [] then 0 else hops[|hops| - 1].d - t
  {
    if hops != [] {
      PausesFit(t, hops[..|hops| - 1]);
    }
  }

  lemma OneMoreHop(n: int, buffer: int)
    ensures (n + 1) * buffer == n * buffer + buffer
  {}

  ghost predicate BuffersReach(hops: seq<Hop>, least: int) {
    forall i :: 0 <= i < |hops| ==> hops[i].budget.buffer >= least
  }

  lemma {:induction false} BuffersAtLeast(hops: seq<Hop>, least: int)
    requires BuffersReach(hops, least)
    ensures Buffers(hops) >= |hops| * least
  {
    if hops != [] {
      BuffersAtLeast(hops[..|hops| - 1], least);
      OneMoreHop(|hops| - 1, least);
    }
  }

  /** A call started at t with deadline D that gets through some hops had room for all their Buffers
      and the last Minimum from the start, wherever the hops paused; so Buffers that are positive
      bound the depth. */
  lemma ChainLength(D: Time, t: Time, hops: seq<Hop>, least: int)
    requires hops != [] && InTurn(t, hops) && Chain(Ctx(Some(D)), hops).Some?
    ensures Buffers(hops) + hops[|hops| - 1].budget.minimum <= D - t
    ensures 0 < least && BuffersReach(hops, least) && hops[|hops| - 1].budget.minimum >= 0 ==>
              |hops| <= (D - t) / least
  {
    HopsLeaveRoom(D, hops);
    PausesFit(t, hops[..|hops| - 1]);
    if 0 < least && BuffersReach(hops, least) && hops[|hops| - 1].budget.minimum >= 0 {
      BuffersAtLeast(hops, least);
      PartsFit(|hops|, D - t, least);
    }
  }

  /** The server of this hop runs with a Timeout. */
  ghost predicate SetsDeadline(hop: Hop) {
    hop.limit > 0
  }

  /** No deadline is invented on the way: a chain that starts without one and goes on ends with one
      exactly when some server on it has a Timeout. */
  lemma {:induction false} OnlyTimeoutsSetDeadlines(hops: seq<Hop>)
    requires Chain(Ctx(None), hops).Some?
    ensures Chain(Ctx(None), hops).value.deadline.Some? <==>
            exists i :: 0 <= i < |hops| && SetsDeadline(hops[i])
  {
    if hops != [] {
      var before, hop := hops[..|hops| - 1], hops[|hops| - 1];
      OnlyTimeoutsSetDeadlines(before);
      assert SetsDeadline(hops[|hops| - 1]) <==> hop.limit > 0;
      assert forall i :: 0 <= i < |before| ==> hops[i] == before[i];
    }
  }

  // ----- what becomes of every deadline on the way -----

  /** By how much a hop's Derive brings a deadline forward. */
  function Drop(hop: Hop): int {
    if hop.budget.buffer > hop.d - hop.c then hop.budget.buffer - (hop.d - hop.c) else 0
  }

  function Drops(hops: seq<Hop>, from: nat): int
    requires from <= |hops|
  {
    if from == |hops| then 0 else Drops(hops[..|hops| - 1], from) + Drop(hops[|hops| - 1])
  }

  /** A deadline is set for hops `from` onwards: by the caller for all of them, or by the Timeout of
      hop `from`.  Its time is `at`. */
  ghost predicate SetAt(ctx: Ctx, hops: seq<Hop>, from: nat, at: Time) {
    || (from == 0 && ctx.deadline == Some(at))
    || (from < |hops| && hops[from].limit > 0 && at == hops[from].b + hops[from].limit)
  }

  /** When the hops before hop k have brought it forward, it leaves hop k its Buffer and Minimum. */
  ghost predicate LeavesRoom(hops: seq<Hop>, from: nat, at: Time, k: nat)
    requires from <= k < |hops|
  {
    at - Drops(hops[..k], from) - hops[k].c >= hops[k].budget.buffer + hops[k].budget.minimum
  }

  ghost predicate RoomEverywhere(ctx: Ctx, hops: seq<Hop>) {
    forall from: nat, k: nat, at ::
      from <= k < |hops| && SetAt(ctx, hops, from, at) ==> LeavesRoom(hops, from, at, k)
  }

  /** The deadline that leaves the chain is the earliest of those that were set, each brought forward
      by the hops after it. */
  ghost predicate Earliest(ctx: Ctx, hops: seq<Hop>, out: Option<Time>) {
    && (forall from: nat, at :: from <= |hops| && SetAt(ctx, hops, from, at) ==>
          out.Some? && out.value <= at - Drops(hops, from))
    && (out.Some? ==> exists from: nat, at ::
          from <= |hops| && SetAt(ctx, hops, from, at) && out.value == at - Drops(hops, from))
  }

  /** The same for what the last hop's Timeout leaves, before its Derive. */
  ghost predicate EarliestMid(ctx: Ctx, hops: seq<Hop>, mid: Option<Time>)
    requires hops != []
  {
    var before := hops[..|hops| - 1];
    && (forall from: nat, at :: from < |hops| && SetAt(ctx, hops, from, at) ==>
          mid.Some? && mid.value <= at - Drops(before, from))
    && (mid.Some? ==> exists from: nat, at ::
          from < |hops| && SetAt(ctx, hops, from, at) && mid.value == at - Drops(before, from))
  }

  lemma SetBefore(ctx: Ctx, hops: seq<Hop>, from: nat, at: Time)
    requires hops != [] && from < |hops|
    ensures var before, hop := hops[..|hops| - 1], hops[|hops| - 1];
            SetAt(ctx, hops, from, at) <==>
            SetAt(ctx, before, from, at) || (from == |before| && hop.limit > 0 && at == hop.b + hop.limit)
  {}

  lemma AfterTimeout(ctx: Ctx, hops: seq<Hop>, inbound: Ctx)
    requires hops != [] && hops[|hops| - 1].Ordered()
    requires Earliest(ctx, hops[..|hops| - 1], inbound.deadline)
    ensures var hop := hops[|hops| - 1]; EarliestMid(ctx, hops, Timeout(hop.limit, inbound, hop.a, hop.b).deadline)
  {
    hide SetAt, Timeout;
    var before, hop := hops[..|hops| - 1], hops[|hops| - 1];
    var mid := Timeout(hop.limit, inbound, hop.a, hop.b).deadline;
    TimeoutExactly(hop.limit, inbound, hop.a, hop.b);
    assert Drops(before, |before|) == 0;
    forall from: nat, at | from < |hops| && SetAt(ctx, hops, from, at)
      ensures mid.Some? && mid.value <= at - Drops(before, from)
    {
      SetBefore(ctx, hops, from, at);
    }
    if mid.Some? {
      if hop.limit > 0 && mid.value == hop.b + hop.limit {
        SetBefore(ctx, hops, |before|, mid.value);
        assert SetAt(ctx, hops, |before|, mid.value);
      } else {
        var from: nat, at :| from <= |before| && SetAt(ctx, before, from, at) && mid.value == at - Drops(before, from);
        SetBefore(ctx, hops, from, at);
        assert SetAt(ctx, hops, from, at);
      }
    }
  }

  /** The last hop goes on exactly if everything that was set leaves it room. */
  lemma LastHop(ctx: Ctx, hops: seq<Hop>, inbound: Ctx)
    requires hops != [] && hops[|hops| - 1].Ordered()
    requires Earliest(ctx, hops[..|hops| - 1], inbound.deadline)
    ensures var r := hops[|hops| - 1].Through(inbound);
            && (r.Child? <==> forall from: nat, at ::
                  from < |hops| && SetAt(ctx, hops, from, at) ==> LeavesRoom(hops, from, at, |hops| - 1))
            && (r.Child? ==> Earliest(ctx, hops, r.ctx.deadline))
  {
    hide SetAt, Timeout, Budget.Derive;
    AfterTimeout(ctx, hops, inbound);
    var hop := hops[|hops| - 1];
    var mid := Timeout(hop.limit, inbound, hop.a, hop.b).deadline;
    if mid.Some? {
      DeriveGoesOnIff(hop.budget, mid.value, hop.c, hop.d);
      if mid.value - hop.c >= hop.budget.buffer + hop.budget.minimum {
        DeriveDrops(hop.budget, mid.value, hop.c, hop.d);
      }
    } else {
      DeriveGoesOnIff(hop.budget, 0, hop.c, hop.d);
    }
    EmptyTail(ctx, hops);
  }

  /** After the last hop nothing is set. */
  lemma EmptyTail(ctx: Ctx, hops: seq<Hop>)
    requires hops != []
    ensures forall at :: !SetAt(ctx, hops, |hops|, at)
  {}

  lemma RoomSplits(ctx: Ctx, hops: seq<Hop>)
    requires hops != []
    ensures RoomEverywhere(ctx, hops) <==>
            && RoomEverywhere(ctx, hops[..|hops| - 1])
            && forall from: nat, at :: from < |hops| && SetAt(ctx, hops, from, at) ==> LeavesRoom(hops, from, at, |hops| - 1)
  {
    hide SetAt, Drops;
    var before := hops[..|hops| - 1];
    forall from: nat, k: nat, at | from <= k < |before|
      ensures SetAt(ctx, hops, from, at) <==> SetAt(ctx, before, from, at)
      ensures LeavesRoom(hops, from, at, k) <==> LeavesRoom(before, from, at, k)
    {
      SetBefore(ctx, hops, from, at);
      assert hops[..k] == before[..k];
    }
  }

  /** A chain goes on to its end exactly when each deadline set on the way, by the caller or by a
      server's Timeout, still leaves every later hop its Buffer and Minimum after the hops between
      have brought it forward; the deadline that comes out is the earliest of them. */
  lemma {:induction false} ChainGoesOnIff(ctx: Ctx, hops: seq<Hop>)
    requires forall i :: 0 <= i < |hops| ==> hops[i].Ordered()
    ensures Chain(ctx, hops).Some? <==> RoomEverywhere(ctx, hops)
    ensures Chain(ctx, hops).Some? ==> Earliest(ctx, hops, Chain(ctx, hops).value.deadline)
  {
    if hops == [] {
      if ctx.deadline.Some? {
        assert SetAt(ctx, hops, 0, ctx.deadline.value);
      }
    } else {
      var before := hops[..|hops| - 1];
      ChainGoesOnIff(ctx, before);
      RoomSplits(ctx, hops);
      if Chain(ctx, before).Some? {
        LastHop(ctx, hops, Chain(ctx, before).value);
      }
    }
  }
}
