/** The retry budget under concurrency.  `Allow` holds the budget's lock, but it reads the clock
    three times and RecordRequest does not take that lock, so requests slip in between its steps. */
module BudgetRuns {
  import opened GoTime
  import opened EventLog
  import opened Budgets
  import Window
  import WindowExactness

  /** Where the one caller inside Allow stands. */
  datatype Phase =
    | Idle
    | HasTotal(total: real, totalAt: Time, seen: nat)
    | HasUsed(total: real, totalAt: Time, seen: nat, used: real, usedAt: Time)

  /** A charged retry: when, and when Allow had read the requests; `seen` were recorded by then. */
  datatype Grant = Grant(at: Time, totalAt: Time, seen: nat, usedAt: Time)

  datatype State = State(
    requests: seq<Event>,
    retries: seq<Event>,
    phase: Phase,
    grants: seq<Grant>,
    refusals: nat,
    clock: Time)

  /** The atomic steps; each is one locked region of a counter, and reads the clock once. */
  datatype Step =
    | Record(now: Time)
    | ReadTotal(now: Time)
    | ReadUsed(now: Time)
    | Decide(now: Time)

  const START := State([], [], Idle, [], 0, 0)

  /** One step, taken only when the lock and the clock permit it. */
  function Next(cfg: Config, s: State, step: Step): State
    requires cfg.Ready()
  {
    if step.now < s.clock then s
    else
      var t := s.(clock := step.now);
      match step
      case Record(now) => t.(requests := s.requests + [Event(now, 1.0)])
      case ReadTotal(now) =>
        if !s.phase.Idle? then s
        else t.(phase := HasTotal(Counted(cfg, s.requests, now), now, |s.requests|))
      case ReadUsed(now) =>
        if !s.phase.HasTotal? then s
        else t.(phase := HasUsed(s.phase.total, s.phase.totalAt, s.phase.seen, Counted(cfg, s.retries, now), now))
      case Decide(now) =>
        if !s.phase.HasUsed? then s
        else if s.phase.used >= cfg.Allowance(s.phase.total) then t.(phase := Idle, refusals := s.refusals + 1)
        else t.(phase := Idle,
                retries := s.retries + [Event(now, 1.0)],
                grants := s.grants + [Grant(now, s.phase.totalAt, s.phase.seen, s.phase.usedAt)])
  }

  function Run(cfg: Config, steps: seq<Step>): State
    requires cfg.Ready()
  {
    if steps == [] then START else Next(cfg, Run(cfg, steps[..|steps| - 1]), steps[|steps| - 1])
  }

  /** One undisturbed Allow is the three steps in a row, with the outcome that `Budget.Allow`
      promises. */
  lemma AllowIsThreeSteps(cfg: Config, s: State, totalAt: Time, usedAt: Time, chargeAt: Time)
    requires cfg.Ready() && s.phase.Idle? && s.clock <= totalAt <= usedAt <= chargeAt
    ensures var ok := Counted(cfg, s.retries, usedAt)
                      < Counted(cfg, s.requests, totalAt) * cfg.ratio + cfg.minPerSecond * (cfg.window as real / 1_000_000_000.0);
            var s' := Next(cfg, Next(cfg, Next(cfg, s, ReadTotal(totalAt)), ReadUsed(usedAt)), Decide(chargeAt));
            && s'.phase.Idle? && s'.clock == chargeAt && s'.requests == s.requests
            && s'.retries == (if ok then s.retries + [Event(chargeAt, 1.0)] else s.retries)
            && |s'.grants| == |s.grants| + (if ok then 1 else 0)
            && s'.refusals == (if ok then s.refusals else s.refusals + 1)
  {
    AllowanceIs(cfg, Counted(cfg, s.requests, totalAt));
    hide Config.Allowance, Counted;
  }

  // ----- what every grant knew -----

  ghost predicate Units(log: seq<Event>) {
    forall e :: e in log ==> e.weight == 1.0
  }

  ghost predicate LogOK(log: seq<Event>, clock: Time) {
    Ordered(log) && Past(log, clock) && Units(log)
  }

  /** `total` and `used` are honest readings of the logs as they were. */
  ghost predicate ReadingOK(cfg: Config, s: State, totalAt: Time, seen: nat, total: real)
    requires cfg.Ready()
  {
    && seen <= |s.requests|
    && 0 <= totalAt <= s.clock
    && LogOK(s.requests[..seen], totalAt)
    && total == Counted(cfg, s.requests[..seen], totalAt)
  }

  ghost predicate GrantOK(cfg: Config, s: State, k: nat)
    requires cfg.Ready() && |s.grants| == |s.retries| && k < |s.grants|
  {
    var g := s.grants[k];
    && s.retries[k].at == g.at
    && g.totalAt <= g.usedAt <= g.at
    && g.seen <= |s.requests|
    && ReadingOK(cfg, s, g.totalAt, g.seen, Counted(cfg, s.requests[..g.seen], g.totalAt))
    && LogOK(s.retries[..k], g.usedAt)
    && Counted(cfg, s.retries[..k], g.usedAt) < cfg.Allowance(Counted(cfg, s.requests[..g.seen], g.totalAt))
  }

  ghost predicate Inv(cfg: Config, s: State)
    requires cfg.Ready()
  {
    && 0 <= s.clock
    && LogOK(s.requests, s.clock) && LogOK(s.retries, s.clock)
    && |s.grants| == |s.retries|
    && (forall k :: 0 <= k < |s.grants| ==> GrantOK(cfg, s, k))
    && (!s.phase.Idle? ==> ReadingOK(cfg, s, s.phase.totalAt, s.phase.seen, s.phase.total))
    && (s.phase.HasUsed? ==>
          && s.phase.totalAt <= s.phase.usedAt <= s.clock
          && LogOK(s.retries, s.phase.usedAt)
          && s.phase.used == Counted(cfg, s.retries, s.phase.usedAt))
  }

  lemma LogExtends(log: seq<Event>, clock: Time, now: Time)
    requires LogOK(log, clock) && 0 <= clock <= now
    ensures LogOK(log, now) && LogOK(log + [Event(now, 1.0)], now)
  {}

  /** Facts about a grant survive whatever is appended to the logs afterwards. */
  lemma GrantKept(cfg: Config, s: State, s': State, k: nat)
    requires cfg.Ready() && |s.grants| == |s.retries| && k < |s.grants| && GrantOK(cfg, s, k)
    requires |s'.grants| == |s'.retries| && s.clock <= s'.clock
    requires s.grants <= s'.grants && s.retries <= s'.retries && s.requests <= s'.requests
    ensures GrantOK(cfg, s', k)
  {
    var g := s.grants[k];
    assert s'.requests[..g.seen] == s.requests[..g.seen];
    assert s'.retries[..k] == s.retries[..k];
  }

  lemma GrantsKept(cfg: Config, s: State, s': State)
    requires cfg.Ready() && |s.grants| == |s.retries| && |s'.grants| == |s'.retries| && s.clock <= s'.clock
    requires s.grants <= s'.grants && s.retries <= s'.retries && s.requests <= s'.requests
    requires forall k :: 0 <= k < |s.grants| ==> GrantOK(cfg, s, k)
    ensures forall k :: 0 <= k < |s.grants| ==> GrantOK(cfg, s', k)
  {
    forall k | 0 <= k < |s.grants|
      ensures GrantOK(cfg, s', k)
    {
      GrantKept(cfg, s, s', k);
    }
  }

  lemma NextKeepsReading(cfg: Config, s: State, s': State)
    requires cfg.Ready() && !s.phase.Idle? && ReadingOK(cfg, s, s.phase.totalAt, s.phase.seen, s.phase.total)
    requires s.clock <= s'.clock && s.requests <= s'.requests
    ensures ReadingOK(cfg, s', s.phase.totalAt, s.phase.seen, s.phase.total)
  {
    assert s'.requests[..s.phase.seen] == s.requests[..s.phase.seen];
  }

  lemma NextKeepsInv(cfg: Config, s: State, step: Step)
    requires cfg.Ready() && Inv(cfg, s)
    ensures Inv(cfg, Next(cfg, s, step))
  {
    var s' := Next(cfg, s, step);
    if step.now >= s.clock {
      LogExtends(s.requests, s.clock, step.now);
      LogExtends(s.retries, s.clock, step.now);
      GrantsKept(cfg, s, s');
      hide LogOK, Counted, Config.Allowance;
      if !s.phase.Idle? {
        NextKeepsReading(cfg, s, s');
      } else {
        assert s.requests[..|s.requests|] == s.requests;
      }
      if |s'.grants| > |s.grants| {
        var k := |s.grants|;
        assert s'.retries[..k] == s.retries;
        assert GrantOK(cfg, s', k);
      }
    }
  }

  lemma {:induction false} RunKeepsInv(cfg: Config, steps: seq<Step>)
    requires cfg.Ready()
    ensures Inv(cfg, Run(cfg, steps))
  {
    if steps != [] {
      RunKeepsInv(cfg, steps[..|steps| - 1]);
      NextKeepsInv(cfg, Run(cfg, steps[..|steps| - 1]), steps[|steps| - 1]);
    }
  }

  // ----- the interval bound -----

  ghost function Within(from: Time, to: Time): Event -> bool {
    (e: Event) => from <= e.at <= to
  }

  /** The requests that grant k could have been measured against: recorded by the time it read
      them, and younger than the window. */
  ghost function RequestsBehind(cfg: Config, s: State, k: nat): real
    requires k < |s.grants| && s.grants[k].seen <= |s.requests|
  {
    Weight(s.requests[..s.grants[k].seen], WindowExactness.AgeBelow(s.grants[k].totalAt, cfg.window))
  }

  /** A reading of the retries sees all of a short interval that reaches up to it. */
  lemma RetriesRead(cfg: Config, retries: seq<Event>, usedAt: Time, from: Time, to: Time)
    requires cfg.Ready() && cfg.Shape().Regular() && LogOK(retries, usedAt) && usedAt <= to
    requires to - from <= (cfg.Shape().n - 1) * cfg.Shape().Width()
    ensures Weight(retries, Within(from, to)) <= Counted(cfg, retries, usedAt)
  {
    hide Window.Shape.Width, Window.Shape.Regular;
    WindowExactness.RecentCounted(cfg.Shape(), retries, usedAt, to - from);
    WeightMonotone(retries, Within(from, to), WindowExactness.AgeAtMost(usedAt, to - from));
  }

  lemma RequestsRead(cfg: Config, requests: seq<Event>, totalAt: Time)
    requires cfg.Ready() && LogOK(requests, totalAt)
    ensures Counted(cfg, requests, totalAt) <= Weight(requests, WindowExactness.AgeBelow(totalAt, cfg.window))
  {
    WindowExactness.NothingOldCounted(cfg.Shape(), requests, totalAt);
  }

  lemma GrantBound(cfg: Config, s: State, k: nat, from: Time, to: Time)
    requires cfg.Ready() && cfg.Shape().Regular() && Inv(cfg, s) && k < |s.grants|
    requires to - from <= (cfg.Shape().n - 1) * cfg.Shape().Width() && s.grants[k].at <= to
    ensures s.grants[k].seen <= |s.requests|
    ensures Weight(s.retries[..k], Within(from, to)) < cfg.Allowance(RequestsBehind(cfg, s, k))
  {
    var g := s.grants[k];
    assert GrantOK(cfg, s, k);
    hide Config.Allowance, Window.Shape.Width, Window.Shape.Regular, Counted;
    RetriesRead(cfg, s.retries[..k], g.usedAt, from, to);
    RequestsRead(cfg, s.requests[..g.seen], g.totalAt);
    AllowanceMonotone(cfg, Counted(cfg, s.requests[..g.seen], g.totalAt), RequestsBehind(cfg, s, k));
  }

  lemma AllowanceMonotone(cfg: Config, a: real, b: real)
    requires cfg.Validate() && a <= b
    ensures cfg.Allowance(a) <= cfg.Allowance(b)
  {
    hide Config.Floor, Share;
    ShareMonotone(a, b, cfg.ratio);
  }

  lemma ShareMonotone(a: real, b: real, ratio: real)
    requires a <= b && ratio >= 0.0
    ensures Share(a, ratio) <= Share(b, ratio)
  {}

  lemma {:induction false} NothingLater(log: seq<Event>, k: nat, p: Event -> bool)
    requires k <= |log| && forall j :: k <= j < |log| ==> !p(log[j])
    ensures Weight(log, p) == Weight(log[..k], p)
  {
    if k == |log| {
      assert log[..k] == log;
    } else {
      NothingLater(Init(log), k, p);
      assert Init(log)[..k] == log[..k];
    }
  }

  /** In any interval no longer than (Buckets-1) bucket widths, and for every interleaving, fewer
      than 1 + Ratio * requests + floor retries are granted, where the requests are those of the
      window that the interval's last grant looked at. */
  lemma IntervalBound(cfg: Config, steps: seq<Step>, k: nat, from: Time, to: Time)
    requires cfg.Ready() && cfg.Shape().Regular()
    requires k < |Run(cfg, steps).grants| && from <= Run(cfg, steps).grants[k].at <= to
    requires to - from <= (cfg.Shape().n - 1) * cfg.Shape().Width()
    requires forall j :: k < j < |Run(cfg, steps).grants| ==> Run(cfg, steps).grants[j].at > to
    ensures Run(cfg, steps).grants[k].seen <= |Run(cfg, steps).requests|
    ensures var s := Run(cfg, steps);
            Weight(s.retries, Within(from, to))
            < 1.0 + RequestsBehind(cfg, s, k) * cfg.ratio + cfg.minPerSecond * (cfg.window as real / 1_000_000_000.0)
  {
    hide *;
    RunKeepsInv(cfg, steps);
    LastGrantPromise(cfg, Run(cfg, steps), k, from, to);
  }

  lemma LastGrantPromise(cfg: Config, s: State, k: nat, from: Time, to: Time)
    requires cfg.Ready() && cfg.Shape().Regular() && Inv(cfg, s)
    requires k < |s.grants| && from <= s.grants[k].at <= to
    requires to - from <= (cfg.Shape().n - 1) * cfg.Shape().Width()
    requires forall j :: k < j < |s.grants| ==> s.grants[j].at > to
    ensures s.grants[k].seen <= |s.requests|
    ensures Weight(s.retries, Within(from, to))
            < 1.0 + RequestsBehind(cfg, s, k) * cfg.ratio + cfg.minPerSecond * (cfg.window as real / 1_000_000_000.0)
  {
    hide *;
    LastGrantBound(cfg, s, k, from, to);
    BoundSpelled(cfg, RequestsBehind(cfg, s, k), Weight(s.retries, Within(from, to)));
  }

  lemma BoundSpelled(cfg: Config, requests: real, granted: real)
    requires cfg.Ready()
    requires cfg.Validate() ==> granted < 1.0 + cfg.Allowance(requests)
    ensures granted < 1.0 + requests * cfg.ratio + cfg.minPerSecond * (cfg.window as real / 1_000_000_000.0)
  {
    AllowanceIs(cfg, requests);
  }

  lemma LastGrantBound(cfg: Config, s: State, k: nat, from: Time, to: Time)
    requires cfg.Ready() && cfg.Shape().Regular() && Inv(cfg, s)
    requires k < |s.grants| && from <= s.grants[k].at <= to
    requires to - from <= (cfg.Shape().n - 1) * cfg.Shape().Width()
    requires forall j :: k < j < |s.grants| ==> s.grants[j].at > to
    ensures s.grants[k].seen <= |s.requests|
    ensures Weight(s.retries, Within(from, to)) < 1.0 + cfg.Allowance(RequestsBehind(cfg, s, k))
  {
    GrantBound(cfg, s, k, from, to);
    forall j | k < j < |s.retries|
      ensures !Within(from, to)(s.retries[j])
    {
      assert GrantOK(cfg, s, j);
    }
    assert GrantOK(cfg, s, k);
    UpToLast(s.retries, k, Within(from, to));
  }

  lemma UpToLast(log: seq<Event>, k: nat, p: Event -> bool)
    requires k < |log| && Units(log) && p(log[k]) && forall j :: k < j < |log| ==> !p(log[j])
    ensures Weight(log, p) == Weight(log[..k], p) + 1.0
  {
    NothingLater(log, k + 1, p);
    assert log[..k + 1] == log[..k] + [log[k]];
    WeightOfAppend(log[..k], log[k], p);
  }

  // ----- the ratio alone is not the bound -----

  /** One request, then one Allow, all at time 0. */
  const FIRST_RETRY: seq<Step> := [Record(0), ReadTotal(0), ReadUsed(0), Decide(0)]

  lemma OneRequestCounts(cfg: Config)
    requires cfg.Ready()
    ensures Counted(cfg, [Event(0, 1.0)], 0) == 1.0 && Counted(cfg, [], 0) == 0.0
  {
    var sh, e := cfg.Shape(), Event(0, 1.0);
    Window.RingCountsExactly(sh, [e], 0);
    Window.RingCountsExactly(sh, [], 0);
    Window.StartIsRecent(sh, 0);
    assert [] + [e] == [e];
    WeightOfAppend([], e, Window.Counted(sh, [e], 0));
  }

  lemma RunOfFour(cfg: Config, a: Step, b: Step, c: Step, d: Step)
    requires cfg.Ready()
    ensures Run(cfg, [a, b, c, d]) == Next(cfg, Next(cfg, Next(cfg, Next(cfg, START, a), b), c), d)
  {
    hide Next;
    assert Run(cfg, []) == START;
    assert [a][..0] == [];
    assert Run(cfg, [a]) == Next(cfg, START, a);
    assert [a, b][..1] == [a];
    assert Run(cfg, [a, b]) == Next(cfg, Run(cfg, [a]), b);
    assert [a, b, c][..2] == [a, b];
    assert Run(cfg, [a, b, c]) == Next(cfg, Run(cfg, [a, b]), c);
    assert [a, b, c, d][..3] == [a, b, c];
  }

  lemma FirstRetryRun(cfg: Config)
    requires cfg.Ready()
    ensures Run(cfg, FIRST_RETRY).requests == [Event(0, 1.0)]
    ensures |Run(cfg, FIRST_RETRY).grants| == if cfg.Allowance(1.0) > 0.0 then 1 else 0
  {
    hide Run, Counted, Config.Allowance;
    OneRequestCounts(cfg);
    RunOfFour(cfg, Record(0), ReadTotal(0), ReadUsed(0), Decide(0));
    var s := Next(cfg, START, Record(0));
    assert s.requests == [] + [Event(0, 1.0)] == [Event(0, 1.0)];
    AllowIsThreeSteps(cfg, s, 0, 0, 0);
    AllowGrants(cfg, s, 0, 0, 0);
  }

  lemma AllowGrants(cfg: Config, s: State, totalAt: Time, usedAt: Time, chargeAt: Time)
    requires cfg.Ready() && s.phase.Idle? && s.clock <= totalAt <= usedAt <= chargeAt
    ensures var ok := Counted(cfg, s.retries, usedAt) < cfg.Allowance(Counted(cfg, s.requests, totalAt));
            var s' := Next(cfg, Next(cfg, Next(cfg, s, ReadTotal(totalAt)), ReadUsed(usedAt)), Decide(chargeAt));
            |s'.grants| == |s.grants| + if ok then 1 else 0
  {}

  /** The first retry alone exceeds the ratio whenever it is allowed and the ratio is below one. */
  lemma FirstRetryExceedsRatio(cfg: Config)
    requires cfg.Ready()
    ensures var s := Run(cfg, FIRST_RETRY);
            |s.grants| as real > cfg.ratio * |s.requests| as real
            <==> (cfg.ratio > 0.0 || cfg.minPerSecond > 0.0) && cfg.ratio < 1.0
  {
    AnythingAllowed(cfg);
    FirstRetryRun(cfg);
    hide Run, Config.Allowance;
    ShareOfOne(cfg.ratio);
  }

  lemma ShareOfOne(ratio: real)
    ensures Share(1.0, ratio) == ratio
  {}

  /** Then a second Allow that reads the requests at 0 and the retries one window later, by when
      the first retry has left the window. */
  function SecondRetry(cfg: Config): seq<Step> {
    FIRST_RETRY + [ReadTotal(0)] + [ReadUsed(cfg.window)] + [Decide(cfg.window)]
  }

  lemma RunMore(cfg: Config, steps: seq<Step>, step: Step)
    requires cfg.Ready()
    ensures Run(cfg, steps + [step]) == Next(cfg, Run(cfg, steps), step)
  {
    assert (steps + [step])[..|steps|] == steps;
  }

  lemma OldRetryForgotten(cfg: Config)
    requires cfg.Ready()
    ensures Counted(cfg, [Event(0, 1.0)], cfg.window) == 0.0
  {
    var sh, e := cfg.Shape(), Event(0, 1.0);
    Window.RingCountsExactly(sh, [e], cfg.window);
    Window.StartIsRecent(sh, 0);
    WeightNone([e], Window.Counted(sh, [e], cfg.window));
  }

  lemma SecondRetryRun(cfg: Config)
    requires cfg.Ready() && (cfg.ratio > 0.0 || cfg.minPerSecond > 0.0)
    ensures |Run(cfg, SecondRetry(cfg)).requests| == 1 && |Run(cfg, SecondRetry(cfg)).grants| == 2
  {
    AnythingAllowed(cfg);
    hide Run, Counted, Config.Allowance;
    FirstRetryRun(cfg);
    var s := Run(cfg, FIRST_RETRY);
    FirstRetryState(cfg);
    RunMore(cfg, FIRST_RETRY, ReadTotal(0));
    RunMore(cfg, FIRST_RETRY + [ReadTotal(0)], ReadUsed(cfg.window));
    RunMore(cfg, FIRST_RETRY + [ReadTotal(0)] + [ReadUsed(cfg.window)], Decide(cfg.window));
    OneRequestCounts(cfg);
    OldRetryForgotten(cfg);
    AllowIsThreeSteps(cfg, s, 0, cfg.window, cfg.window);
    AllowGrants(cfg, s, 0, cfg.window, cfg.window);
  }

  lemma FirstRetryState(cfg: Config)
    requires cfg.Ready() && cfg.Allowance(1.0) > 0.0
    ensures var s := Run(cfg, FIRST_RETRY);
            s.phase.Idle? && s.clock == 0 && s.requests == [Event(0, 1.0)] && s.retries == [Event(0, 1.0)]
  {
    hide Run, Counted, Config.Allowance;
    OneRequestCounts(cfg);
    RunOfFour(cfg, Record(0), ReadTotal(0), ReadUsed(0), Decide(0));
    var s := Next(cfg, START, Record(0));
    assert s.requests == [] + [Event(0, 1.0)] == [Event(0, 1.0)];
    AllowIsThreeSteps(cfg, s, 0, 0, 0);
    assert [] + [Event(0, 1.0)] == [Event(0, 1.0)];
  }

  /** Without a ratio and without a floor nothing is ever granted. */
  lemma {:induction false} NothingGranted(cfg: Config, steps: seq<Step>)
    requires cfg.Ready() && cfg.Allowance(1.0) == 0.0
    ensures var s := Run(cfg, steps);
            s.grants == [] && s.retries == [] && (s.phase.HasUsed? ==> s.phase.used == 0.0)
  {
    if steps != [] {
      NothingGranted(cfg, steps[..|steps| - 1]);
      var s, step := Run(cfg, steps[..|steps| - 1]), steps[|steps| - 1];
      hide Run, Counted, Config.Allowance;
      NothingCounted(cfg, step.now);
      if s.phase.HasUsed? {
        AllowanceVanishes(cfg, s.phase.total);
      }
    }
  }

  lemma NothingCounted(cfg: Config, now: Time)
    requires cfg.Ready()
    ensures Counted(cfg, [], now) == 0.0
  {
    Window.RingCountsExactly(cfg.Shape(), [], now);
  }

  lemma AllowanceVanishes(cfg: Config, requests: real)
    requires cfg.Validate() && cfg.Allowance(1.0) == 0.0
    ensures cfg.Allowance(requests) == 0.0
  {
    hide Config.Floor, Share;
    ShareOfOne(cfg.ratio);
    ShareOfNothing(requests);
  }

  lemma ShareOfNothing(requests: real)
    ensures Share(requests, 0.0) == 0.0
  {}

  /** On every run, the retries granted are at most Ratio times the requests recorded. */
  ghost predicate RatioKept(cfg: Config)
    requires cfg.Ready()
  {
    forall steps: seq<Step> ::
      |Run(cfg, steps).grants| as real <= cfg.ratio * |Run(cfg, steps).requests| as real
  }

  lemma AnythingAllowed(cfg: Config)
    requires cfg.Validate()
    ensures if cfg.ratio == 0.0 && cfg.minPerSecond == 0.0 then cfg.Allowance(1.0) == 0.0 else cfg.Allowance(1.0) > 0.0
  {
    var seconds := cfg.window as real / 1_000_000_000.0;
    AllowanceIs(cfg, 1.0);
    assert seconds > 0.0;
    if cfg.minPerSecond > 0.0 {
      assert cfg.minPerSecond * seconds > 0.0;
    }
  }

  /** "Retries add at most Ratio of the traffic" holds on every run exactly when both Ratio and
      MinPerSecond are zero, so that no retry is ever granted. */
  lemma RatioKeptIff(cfg: Config)
    requires cfg.Ready()
    ensures RatioKept(cfg) <==> cfg.ratio == 0.0 && cfg.minPerSecond == 0.0
  {
    AnythingAllowed(cfg);
    if cfg.Allowance(1.0) == 0.0 {
      forall steps: seq<Step>
        ensures |Run(cfg, steps).grants| as real <= cfg.ratio * |Run(cfg, steps).requests| as real
      {
        NothingGranted(cfg, steps);
        ShareNonNegative(|Run(cfg, steps).requests| as real, cfg.ratio);
      }
    } else {
      RatioBroken(cfg);
    }
  }

  lemma ShareNonNegative(requests: real, ratio: real)
    requires requests >= 0.0 && ratio >= 0.0
    ensures Share(requests, ratio) >= 0.0
  {}

  lemma RatioBroken(cfg: Config)
    requires cfg.Ready() && cfg.Allowance(1.0) != 0.0
    ensures !RatioKept(cfg)
  {
    AnythingAllowed(cfg);
    ShareOfOne(cfg.ratio);
    if cfg.ratio < 1.0 {
      FirstRetryExceedsRatio(cfg);
    } else {
      SecondRetryRun(cfg);
    }
  }
}
