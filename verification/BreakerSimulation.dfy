/** The bucketed breaker against an ideal one that keeps the whole list of reports since the last
    close and counts them afresh at every decision. */
module BreakerSimulation {
  import opened Wrappers
  import opened GoTime
  import opened Classify
  import opened BreakerCore
  import opened BreakerRuns
  import opened BreakerOutage
  import EventLog
  import Window
  import WindowExactness

  datatype Entry = Entry(at: Time, failed: bool)

  datatype Ideal = Ideal(
    state: State,
    log: seq<Entry>,
    openedAt: Time,
    probes: int,
    successes: int,
    observed: seq<StateChange>,
    issued: nat,
    reported: set<nat>)

  function IdealStart(): Ideal {
    Ideal(Closed, [], ZERO_TIME, 0, 0, [], 0, {})
  }

  /** The entries whose bucket is younger than the window. */
  function Recent(cfg: Config, log: seq<Entry>, now: Time): (r: seq<Entry>)
    requires cfg.Ready()
    ensures |r| <= |log|
  {
    if log == [] then []
    else
      var e, earlier := log[|log| - 1], Recent(cfg, log[..|log| - 1], now);
      if cfg.Shape().Start(e.at) > now - cfg.window then earlier + [e] else earlier
  }

  function Faulty(log: seq<Entry>): (n: nat)
    ensures n <= |log|
  {
    if log == [] then 0 else Faulty(log[..|log| - 1]) + if log[|log| - 1].failed then 1 else 0
  }

  /** Enough volume, and at least the configured share of it faulty. */
  predicate IdealGate(cfg: Config, recent: seq<Entry>) {
    |recent| >= cfg.minimumRequests && Faulty(recent) as real >= cfg.failureRatio * |recent| as real
  }

  function Change(cfg: Config, s: Ideal, to: State, now: Time): StateChange
    requires cfg.Ready()
  {
    var recent := Recent(cfg, s.log, now);
    StateChange(s.state, to, Faulty(recent), |recent|)
  }

  function IdealOpen(cfg: Config, s: Ideal, now: Time): Ideal
    requires cfg.Ready()
  {
    s.(state := Open, openedAt := now, probes := 0, successes := 0, observed := s.observed + [Change(cfg, s, Open, now)])
  }

  /** Permission: closed admits; open waits out its timeout and then probes; half-open probes. */
  function IdealAsk(cfg: Config, s: Ideal, now: Time): Ideal
    requires cfg.Ready()
  {
    if s.state == Closed then s.(issued := s.issued + 1)
    else if s.state == Open then
      if now < s.openedAt + cfg.openDuration then s
      else s.(state := HalfOpen, probes := 1, successes := 0, issued := s.issued + 1,
              observed := s.observed + [Change(cfg, s, HalfOpen, now)])
    else if s.probes < cfg.halfOpenMaxCalls then s.(probes := s.probes + 1, issued := s.issued + 1)
    else s
  }

  /** A report: logged, then judged by the state it meets. */
  function IdealDone(cfg: Config, s: Ideal, id: nat, now: Time, failed: bool): Ideal
    requires cfg.Ready()
  {
    if id >= s.issued || id in s.reported then s
    else
      var t := s.(log := s.log + [Entry(now, failed)], reported := s.reported + {id});
      var recent := Recent(cfg, t.log, now);
      match s.state
      case Open => t
      case Closed =>
        if IdealGate(cfg, recent) then IdealOpen(cfg, t, now) else t
      case HalfOpen =>
        if failed then IdealOpen(cfg, t, now)
        else if s.successes + 1 >= cfg.halfOpenSuccesses then
          t.(state := Closed, probes := 0, successes := 0, log := [], observed := t.observed + [Change(cfg, t, Closed, now)])
        else t.(probes := s.probes - 1, successes := s.successes + 1)
  }

  ghost function IdealStep(cfg: Config, s: Ideal, op: Op): Ideal
    requires cfg.Ready()
  {
    match op
    case Ask(now) => IdealAsk(cfg, s, now)
    case Done(id, now, err) => IdealDone(cfg, s, id, now, ServerFault(err))
  }

  ghost function IdealRun(cfg: Config, ops: seq<Op>): Ideal
    requires cfg.Ready()
  {
    if ops == [] then IdealStart()
    else IdealStep(cfg, IdealRun(cfg, ops[..|ops| - 1]), ops[|ops| - 1])
  }

  // ----- the two column views of the bucket ring -----

  function TotalSlots(bs: seq<Bucket>): (r: seq<Window.Slot>)
    ensures |r| == |bs|
  {
    seq(|bs|, i requires 0 <= i < |bs| => Window.Slot(bs[i].start, bs[i].total as real))
  }

  function FailureSlots(bs: seq<Bucket>): (r: seq<Window.Slot>)
    ensures |r| == |bs|
  {
    seq(|bs|, i requires 0 <= i < |bs| => Window.Slot(bs[i].start, bs[i].failures as real))
  }

  function TotalEvents(log: seq<Entry>): (r: seq<EventLog.Event>)
    ensures |r| == |log|
  {
    seq(|log|, i requires 0 <= i < |log| => EventLog.Event(log[i].at, 1.0))
  }

  function FailureEvents(log: seq<Entry>): (r: seq<EventLog.Event>)
    ensures |r| == |log|
  {
    seq(|log|, i requires 0 <= i < |log| => EventLog.Event(log[i].at, if log[i].failed then 1.0 else 0.0))
  }

  /** Both columns of the ring are replays of the log. */
  ghost predicate RingOf(cfg: Config, bs: seq<Bucket>, log: seq<Entry>)
    requires cfg.Ready()
  {
    && |bs| == cfg.buckets
    && TotalSlots(bs) == Window.Replay(cfg.Shape(), TotalEvents(log))
    && FailureSlots(bs) == Window.Replay(cfg.Shape(), FailureEvents(log))
  }

  lemma CountReportLogs(cfg: Config, bs: seq<Bucket>, log: seq<Entry>, now: Time, failed: bool)
    requires cfg.Ready() && RingOf(cfg, bs, log)
    ensures RingOf(cfg, CountReport(cfg, bs, now, failed), log + [Entry(now, failed)])
  {
    var log', bs' := log + [Entry(now, failed)], CountReport(cfg, bs, now, failed);
    assert EventLog.Init(TotalEvents(log')) == TotalEvents(log);
    assert EventLog.Init(FailureEvents(log')) == FailureEvents(log);
    assert TotalSlots(bs') == Window.Add(cfg.Shape(), TotalSlots(bs), now, 1.0);
    assert FailureSlots(bs') == Window.Add(cfg.Shape(), FailureSlots(bs), now, if failed then 1.0 else 0.0);
  }

  lemma {:induction false} ColumnSums(bs: seq<Bucket>, cutoff: Time, k: nat)
    requires k <= |bs|
    ensures Window.SumUpTo(TotalSlots(bs), cutoff, k) == Totals(bs, cutoff, k) as real
    ensures Window.SumUpTo(FailureSlots(bs), cutoff, k) == Failures(bs, cutoff, k) as real
  {
    if k > 0 {
      ColumnSums(bs, cutoff, k - 1);
    }
  }

  lemma {:induction false} RecentWeights(cfg: Config, log: seq<Entry>, now: Time)
    requires cfg.Ready()
    ensures EventLog.Weight(TotalEvents(log), Window.InWindow(cfg.Shape(), now)) == |Recent(cfg, log, now)| as real
    ensures EventLog.Weight(FailureEvents(log), Window.InWindow(cfg.Shape(), now)) == Faulty(Recent(cfg, log, now)) as real
  {
    if log != [] {
      var before, e := log[..|log| - 1], log[|log| - 1];
      RecentWeights(cfg, before, now);
      assert EventLog.Init(TotalEvents(log)) == TotalEvents(before);
      assert EventLog.Init(FailureEvents(log)) == FailureEvents(before);
      var earlier := Recent(cfg, before, now);
      assert (earlier + [e])[..|earlier|] == earlier;
    }
  }

  ghost predicate InOrder(log: seq<Entry>, now: Time) {
    && (forall i :: 0 <= i < |log| ==> 0 <= log[i].at <= now)
    && (forall i, j :: 0 <= i < j < |log| ==> log[i].at <= log[j].at)
  }

  lemma EventsInOrder(log: seq<Entry>, now: Time)
    requires InOrder(log, now)
    ensures EventLog.Ordered(TotalEvents(log)) && EventLog.Past(TotalEvents(log), now)
    ensures EventLog.Ordered(FailureEvents(log)) && EventLog.Past(FailureEvents(log), now)
  {}

  lemma ColumnsExact(sh: Window.Shape, log: seq<Entry>, now: Time)
    requires sh.Valid() && sh.Tiled() && InOrder(log, now)
    ensures Window.Sum(sh, Window.Replay(sh, TotalEvents(log)), now)
         == EventLog.Weight(TotalEvents(log), Window.InWindow(sh, now))
    ensures Window.Sum(sh, Window.Replay(sh, FailureEvents(log)), now)
         == EventLog.Weight(FailureEvents(log), Window.InWindow(sh, now))
  {
    EventsInOrder(log, now);
    WindowExactness.RingIsExact(sh, TotalEvents(log), now);
    WindowExactness.RingIsExact(sh, FailureEvents(log), now);
  }

  /** The ring's sums are the ideal counts. */
  lemma SumsAgree(cfg: Config, bs: seq<Bucket>, log: seq<Entry>, now: Time)
    requires cfg.Ready() && cfg.Shape().Tiled() && RingOf(cfg, bs, log) && InOrder(log, now)
    ensures WindowTotal(cfg, bs, now) == |Recent(cfg, log, now)|
    ensures WindowFailures(cfg, bs, now) == Faulty(Recent(cfg, log, now))
  {
    hide Totals, Failures, Recent, Faulty, TotalEvents, FailureEvents, InOrder;
    hide Window.Replay, Window.SumUpTo, Window.Shape.Regular, EventLog.Weight;
    ColumnSums(bs, now - cfg.window, |bs|);
    RecentWeights(cfg, log, now);
    ColumnsExact(cfg.Shape(), log, now);
  }

  // ----- the simulation -----

  ghost predicate Matches(cfg: Config, c: Core, s: Ideal)
    requires cfg.Ready()
  {
    && c.state == s.state && c.openedAt == s.openedAt
    && c.halfOpen == s.probes && c.consecutiveOK == s.successes
    && c.observed == s.observed
    && RingOf(cfg, c.buckets, s.log)
  }

  ghost predicate Simulates(cfg: Config, w: World, s: Ideal)
    requires cfg.Ready()
  {
    Matches(cfg, w.core, s) && |w.tokens| == s.issued && w.reported == s.reported
  }

  lemma AskSimulated(cfg: Config, w: World, s: Ideal, now: Time)
    requires Shaped(cfg, w.core) && cfg.Shape().Tiled() && Simulates(cfg, w, s) && InOrder(s.log, now)
    ensures Simulates(cfg, AskStep(cfg, w, now), IdealAsk(cfg, s, now))
  {
    SumsAgree(cfg, w.core.buckets, s.log, now);
  }

  /** What Record and IdealDone share before they look at the state. */
  lemma ReportLogged(cfg: Config, bs: seq<Bucket>, log: seq<Entry>, now: Time, failed: bool)
    requires cfg.Ready() && cfg.Shape().Tiled() && RingOf(cfg, bs, log) && InOrder(log, now) && 0 <= now
    ensures var bs', log' := CountReport(cfg, bs, now, failed), log + [Entry(now, failed)];
            && RingOf(cfg, bs', log')
            && WindowTotal(cfg, bs', now) == |Recent(cfg, log', now)|
            && WindowFailures(cfg, bs', now) == Faulty(Recent(cfg, log', now))
  {
    var log', bs' := log + [Entry(now, failed)], CountReport(cfg, bs, now, failed);
    CountReportLogs(cfg, bs, log, now, failed);
    assert InOrder(log', now);
    SumsAgree(cfg, bs', log', now);
  }

  lemma GateAgrees(cfg: Config, total: int, failures: int, recent: seq<Entry>)
    requires cfg.Validate() && total == |recent| && failures == Faulty(recent)
    ensures cfg.Trips(total, failures) == IdealGate(cfg, recent)
  {
    hide Faulty;
    if total >= cfg.minimumRequests {
      var f, t, r := failures as real, total as real, cfg.failureRatio;
      assert t > 0.0;
      RatioTest(f, t, r);
    }
  }

  lemma ClosedIdeal(cfg: Config, s: Ideal, id: nat, now: Time, failed: bool, gate: bool)
    requires cfg.Ready() && s.state == Closed && id < s.issued && id !in s.reported
    requires gate == IdealGate(cfg, Recent(cfg, s.log + [Entry(now, failed)], now))
    ensures var t := s.(log := s.log + [Entry(now, failed)], reported := s.reported + {id});
            IdealDone(cfg, s, id, now, failed) == if gate then IdealOpen(cfg, t, now) else t
  {}

  lemma TripMatches(cfg: Config, c: Core, s: Ideal, now: Time)
    requires cfg.Ready() && Matches(cfg, c, s) && s.state != Open
    requires WindowTotal(cfg, c.buckets, now) == |Recent(cfg, s.log, now)|
    requires WindowFailures(cfg, c.buckets, now) == Faulty(Recent(cfg, s.log, now))
    ensures Matches(cfg, Trip(cfg, c, now), IdealOpen(cfg, s, now))
  {}

  lemma ClosedMatches(cfg: Config, c: Core, s: Ideal, id: nat, now: Time, failed: bool)
    requires Shaped(cfg, c) && cfg.Shape().Tiled() && Matches(cfg, c, s) && InOrder(s.log, now) && 0 <= now
    requires s.state == Closed && id < s.issued && id !in s.reported
    ensures Matches(cfg, Record(cfg, c, now, failed), IdealDone(cfg, s, id, now, failed))
  {
    ReportLogged(cfg, c.buckets, s.log, now, failed);
    var bs, log := CountReport(cfg, c.buckets, now, failed), s.log + [Entry(now, failed)];
    var recent := Recent(cfg, log, now);
    var gate := IdealGate(cfg, recent);
    GateAgrees(cfg, WindowTotal(cfg, bs, now), WindowFailures(cfg, bs, now), recent);
    ClosedRecord(cfg, c, now, failed, gate);
    ClosedIdeal(cfg, s, id, now, failed, gate);
    var counted, t := c.(buckets := bs), s.(log := log, reported := s.reported + {id});
    assert Matches(cfg, counted, t);
    TripMatches(cfg, counted, t, now);
  }

  lemma ClosedSimulated(cfg: Config, w: World, s: Ideal, id: nat, now: Time, err: Option<Err>)
    requires Shaped(cfg, w.core) && cfg.Shape().Tiled() && Simulates(cfg, w, s) && InOrder(s.log, now) && 0 <= now
    requires s.state == Closed && id < |w.tokens| && id !in w.reported
    ensures Simulates(cfg, DoneStep(cfg, w, id, now, err), IdealDone(cfg, s, id, now, CountsAsFailure(err)))
  {
    hide Record, RingOf, InOrder, IdealGate, Window.Shape.Tiled;
    ClosedMatches(cfg, w.core, s, id, now, CountsAsFailure(err));
  }

  lemma HalfOpenSimulated(cfg: Config, w: World, s: Ideal, id: nat, now: Time, err: Option<Err>)
    requires Shaped(cfg, w.core) && cfg.Shape().Tiled() && Simulates(cfg, w, s) && InOrder(s.log, now) && 0 <= now
    requires s.state == HalfOpen && id < |w.tokens| && id !in w.reported
    ensures Simulates(cfg, DoneStep(cfg, w, id, now, err), IdealDone(cfg, s, id, now, CountsAsFailure(err)))
  {
    ReportLogged(cfg, w.core.buckets, s.log, now, CountsAsFailure(err));
    NothingLogged(cfg);
  }

  lemma OpenSimulated(cfg: Config, w: World, s: Ideal, id: nat, now: Time, err: Option<Err>)
    requires Shaped(cfg, w.core) && cfg.Shape().Tiled() && Simulates(cfg, w, s) && InOrder(s.log, now) && 0 <= now
    requires s.state == Open && id < |w.tokens| && id !in w.reported
    ensures Simulates(cfg, DoneStep(cfg, w, id, now, err), IdealDone(cfg, s, id, now, CountsAsFailure(err)))
  {
    ReportLogged(cfg, w.core.buckets, s.log, now, CountsAsFailure(err));
  }

  lemma NothingLogged(cfg: Config)
    requires cfg.Ready()
    ensures RingOf(cfg, EmptyBuckets(cfg.buckets), [])
  {}

  lemma RatioTest(failures: real, total: real, ratio: real)
    requires total > 0.0
    ensures failures / total >= ratio <==> failures >= ratio * total
  {
    assert (failures / total) * total == failures;
  }

  lemma StepSimulated(cfg: Config, w: World, s: Ideal, op: Op)
    requires Shaped(cfg, w.core) && cfg.Shape().Tiled() && Simulates(cfg, w, s) && Conserved(cfg, w)
    requires InOrder(s.log, TimeOf(op)) && 0 <= TimeOf(op)
    ensures Simulates(cfg, Step(cfg, w, op), IdealStep(cfg, s, op))
  {
    hide AskStep, DoneStep, IdealAsk, Conserved, RingOf, InOrder, Window.Shape.Tiled;
    match op {
      case Ask(t) => AskSimulated(cfg, w, s, t);
      case Done(id, t, err) =>
        CountsIffServerFault(err);
        if id < |w.tokens| && id !in w.reported {
          match s.state {
            case Closed => ClosedSimulated(cfg, w, s, id, t, err);
            case HalfOpen => HalfOpenSimulated(cfg, w, s, id, t, err);
            case Open => OpenSimulated(cfg, w, s, id, t, err);
          }
        }
    }
  }

  lemma StepKeepsOrder(cfg: Config, s: Ideal, op: Op)
    requires cfg.Ready() && InOrder(s.log, TimeOf(op)) && 0 <= TimeOf(op)
    ensures InOrder(IdealStep(cfg, s, op).log, TimeOf(op))
  {
    hide Recent, IdealGate;
    match op {
      case Ask(_) =>
      case Done(id, now, err) => LogOrKept(cfg, s, id, now, ServerFault(err));
    }
  }

  /** A report is appended to the log, unless it closes the breaker and empties it. */
  lemma LogOrKept(cfg: Config, s: Ideal, id: nat, now: Time, failed: bool)
    requires cfg.Ready()
    ensures IdealDone(cfg, s, id, now, failed).log in {s.log, s.log + [Entry(now, failed)], []}
  {}

  lemma {:induction false} RunSimulated(cfg: Config, ops: seq<Op>, now: Time)
    requires cfg.Ready() && cfg.Shape().Tiled() && Timely(ops, 0, now)
    ensures Simulates(cfg, Run(cfg, ops), IdealRun(cfg, ops))
    ensures InOrder(IdealRun(cfg, ops).log, LastTime(0, ops))
  {
    if ops == [] {
      NothingLogged(cfg);
    } else {
      var before, op := ops[..|ops| - 1], ops[|ops| - 1];
      RunSimulated(cfg, before, now);
      RunConserves(cfg, before);
      LastTimeOrdered(ops, now);
      StepSimulated(cfg, Run(cfg, before), IdealRun(cfg, before), op);
      StepKeepsOrder(cfg, IdealRun(cfg, before), op);
    }
  }

  lemma LastTimeOrdered(ops: seq<Op>, now: Time)
    requires ops != [] && Timely(ops, 0, now)
    ensures LastTime(0, ops[..|ops| - 1]) <= TimeOf(ops[|ops| - 1])
  {
    if |ops| > 1 {
      assert TimeOf(ops[|ops| - 2]) <= TimeOf(ops[|ops| - 1]);
    }
  }

  /** In every run with an ordered clock the ring-based breaker gives the same answers, is in the
      same state and tells its observer the same things as the ideal one. */
  lemma BreakerMeetsIdeal(cfg: Config, ops: seq<Op>, now: Time)
    requires cfg.Ready() && cfg.Shape().Tiled() && Timely(ops, 0, now)
    ensures var w, s := Run(cfg, ops), IdealRun(cfg, ops);
            w.core.state == s.state && w.core.observed == s.observed && |w.tokens| == s.issued
  {
    RunSimulated(cfg, ops, now);
  }
}
