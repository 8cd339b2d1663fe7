/** What the whole history of a breaker obeys, under any clock: the price of a trip, and the walk
    its observer sees. */
module BreakerHistory {
  import opened Wrappers
  import opened GoTime
  import opened Classify
  import opened BreakerCore
  import opened BreakerRuns

  // ----- the price of a trip -----

  function ClosedReports(reports: seq<Report>): nat {
    if reports == [] then 0
    else ClosedReports(reports[..|reports| - 1]) + if reports[|reports| - 1].during == Closed then 1 else 0
  }

  function ClosedFaults(reports: seq<Report>): nat {
    if reports == [] then 0
    else
      var r := reports[|reports| - 1];
      ClosedFaults(reports[..|reports| - 1]) + if r.during == Closed && r.failed then 1 else 0
  }

  /** The number of Closed-to-Open changes. */
  function ClosedTrips(observed: seq<StateChange>): nat {
    if observed == [] then 0
    else
      var c := observed[|observed| - 1];
      ClosedTrips(observed[..|observed| - 1]) + if c.from == Closed && c.to == Open then 1 else 0
  }

  /** Everything in the first k buckets, expired or not. */
  function Held(bs: seq<Bucket>, k: nat): int
    requires k <= |bs|
  {
    if k == 0 then 0 else Held(bs, k - 1) + bs[k - 1].total
  }

  function HeldFaults(bs: seq<Bucket>, k: nat): int
    requires k <= |bs|
  {
    if k == 0 then 0 else HeldFaults(bs, k - 1) + bs[k - 1].failures
  }

  ghost predicate Sane(bs: seq<Bucket>) {
    forall i :: 0 <= i < |bs| ==> 0 <= bs[i].failures <= bs[i].total
  }

  lemma {:induction false} HeldUpdate(bs: seq<Bucket>, i: nat, b: Bucket, k: nat)
    requires i < |bs| && k <= |bs|
    ensures Held(bs[i := b], k) == Held(bs, k) + if i < k then b.total - bs[i].total else 0
    ensures HeldFaults(bs[i := b], k) == HeldFaults(bs, k) + if i < k then b.failures - bs[i].failures else 0
  {
    if k > 0 {
      HeldUpdate(bs, i, b, k - 1);
    }
  }

  lemma {:induction false} WindowWithinHeld(bs: seq<Bucket>, cutoff: Time, k: nat)
    requires Sane(bs) && k <= |bs|
    ensures Totals(bs, cutoff, k) <= Held(bs, k)
    ensures Failures(bs, cutoff, k) <= HeldFaults(bs, k)
  {
    if k > 0 {
      WindowWithinHeld(bs, cutoff, k - 1);
    }
  }

  lemma {:induction false} NothingHeld(n: nat, k: nat)
    requires k <= n
    ensures Held(EmptyBuckets(n), k) == 0 && HeldFaults(EmptyBuckets(n), k) == 0
  {
    if k > 0 {
      NothingHeld(n, k - 1);
    }
  }

  lemma CountReportHeld(cfg: Config, bs: seq<Bucket>, now: Time, failed: bool)
    requires cfg.Ready() && |bs| == cfg.buckets && Sane(bs)
    ensures var r := CountReport(cfg, bs, now, failed);
            && Sane(r)
            && Held(r, |r|) <= Held(bs, |bs|) + 1
            && HeldFaults(r, |r|) <= HeldFaults(bs, |bs|) + if failed then 1 else 0
  {
    var i := cfg.Shape().Index(now);
    HeldUpdate(bs, i, CountReport(cfg, bs, now, failed)[i], |bs|);
  }

  /** The server faults that one trip requires at least. */
  function GateFaults(cfg: Config): real {
    cfg.failureRatio * cfg.minimumRequests as real
  }

  function IsTrip(c: StateChange): bool {
    c.from == Closed && c.to == Open
  }

  /** A full gate of reports for every trip so far. */
  function TripReports(cfg: Config, observed: seq<StateChange>): int {
    if observed == [] then 0
    else TripReports(cfg, observed[..|observed| - 1]) + if IsTrip(observed[|observed| - 1]) then cfg.minimumRequests else 0
  }

  function TripFaults(cfg: Config, observed: seq<StateChange>): real {
    if observed == [] then 0.0
    else TripFaults(cfg, observed[..|observed| - 1]) + if IsTrip(observed[|observed| - 1]) then GateFaults(cfg) else 0.0
  }

  lemma {:induction false} TripPrice(cfg: Config, observed: seq<StateChange>)
    ensures TripReports(cfg, observed) == cfg.minimumRequests * ClosedTrips(observed)
    ensures TripFaults(cfg, observed) == GateFaults(cfg) * ClosedTrips(observed) as real
  {
    if observed != [] {
      TripPrice(cfg, observed[..|observed| - 1]);
      OneMore(cfg.minimumRequests, GateFaults(cfg), ClosedTrips(observed[..|observed| - 1]));
    }
  }

  lemma OneMore(a: int, x: real, n: nat)
    ensures a * (n + 1) == a * n + a
    ensures x * (n + 1) as real == x * n as real + x
  {}

  /** Reports made while closed have paid for every trip, and for what the window still holds. */
  ghost predicate Paid(cfg: Config, c: Core, reports: seq<Report>) {
    && Sane(c.buckets)
    && TripReports(cfg, c.observed) + (if c.state == Closed then Held(c.buckets, |c.buckets|) else 0)
         <= ClosedReports(reports)
    && TripFaults(cfg, c.observed) + (if c.state == Closed then HeldFaults(c.buckets, |c.buckets|) as real else 0.0)
         <= ClosedFaults(reports) as real
  }

  lemma TransitionTrips(cfg: Config, c: Core, to: State, now: Time)
    ensures var trips := c.state == Closed && to == Open;
            var obs := Transition(cfg, c, to, now).observed;
            && TripReports(cfg, obs) == TripReports(cfg, c.observed) + (if trips then cfg.minimumRequests else 0)
            && TripFaults(cfg, obs) == TripFaults(cfg, c.observed) + (if trips then GateFaults(cfg) else 0.0)
  {
    var obs := Transition(cfg, c, to, now).observed;
    if c.state != to {
      assert obs[..|obs| - 1] == c.observed;
    }
  }

  lemma TripMeetsGate(cfg: Config, bs: seq<Bucket>, now: Time)
    requires cfg.Ready() && Sane(bs)
    requires cfg.Trips(WindowTotal(cfg, bs, now), WindowFailures(cfg, bs, now))
    ensures Held(bs, |bs|) >= cfg.minimumRequests
    ensures HeldFaults(bs, |bs|) as real >= GateFaults(cfg)
  {
    WindowWithinHeld(bs, now - cfg.window, |bs|);
    RatioOfGate(WindowFailures(cfg, bs, now) as real, WindowTotal(cfg, bs, now) as real,
                cfg.failureRatio, cfg.minimumRequests as real);
  }

  lemma RatioOfGate(failures: real, total: real, ratio: real, gate: real)
    requires total >= gate > 0.0 && ratio > 0.0 && failures / total >= ratio
    ensures failures >= ratio * gate
  {
    assert failures == (failures / total) * total >= ratio * total >= ratio * gate;
  }

  lemma TripPays(cfg: Config, c: Core, closed: nat, faults: nat, now: Time)
    requires cfg.Ready() && c.state == Closed
    requires TripReports(cfg, c.observed) + cfg.minimumRequests <= closed
    requires TripFaults(cfg, c.observed) + GateFaults(cfg) <= faults as real
    ensures var c' := Trip(cfg, c, now);
            && TripReports(cfg, c'.observed) <= closed
            && TripFaults(cfg, c'.observed) <= faults as real
            && c'.state == Open && c'.buckets == c.buckets
  {
    TransitionTrips(cfg, c.(openedAt := now), Open, now);
  }

  lemma ClosedPays(cfg: Config, c: Core, reports: seq<Report>, now: Time, failed: bool)
    requires Shaped(cfg, c) && c.state == Closed && Paid(cfg, c, reports)
    ensures Paid(cfg, Record(cfg, c, now, failed), reports + [Report(now, failed, Closed)])
  {
    hide Record, CountReport, Config.Trips, WindowTotal, WindowFailures, TripReports, TripFaults, GateFaults, Held, HeldFaults;
    var reports' := reports + [Report(now, failed, Closed)];
    ReportsAppend(reports, Report(now, failed, Closed));
    var bs := CountReport(cfg, c.buckets, now, failed);
    var counted := c.(buckets := bs);
    CountReportHeld(cfg, c.buckets, now, failed);
    var gate := cfg.Trips(WindowTotal(cfg, bs, now), WindowFailures(cfg, bs, now));
    ClosedRecord(cfg, c, now, failed, gate);
    if gate {
      TripMeetsGate(cfg, bs, now);
      TripPays(cfg, counted, ClosedReports(reports'), ClosedFaults(reports'), now);
    }
  }

  lemma ReportsAppend(reports: seq<Report>, r: Report)
    ensures ClosedReports(reports + [r]) == ClosedReports(reports) + if r.during == Closed then 1 else 0
    ensures ClosedFaults(reports + [r]) == ClosedFaults(reports) + if r.during == Closed && r.failed then 1 else 0
  {
    assert (reports + [r])[..|reports|] == reports;
  }

  lemma OpenPays(cfg: Config, c: Core, reports: seq<Report>, now: Time, failed: bool)
    requires Shaped(cfg, c) && c.state == Open && Paid(cfg, c, reports)
    ensures Paid(cfg, Record(cfg, c, now, failed), reports + [Report(now, failed, Open)])
  {
    hide TripReports, TripFaults, GateFaults, Held, HeldFaults, CountReport;
    ReportsAppend(reports, Report(now, failed, Open));
    CountReportHeld(cfg, c.buckets, now, failed);
  }

  lemma HalfOpenPays(cfg: Config, c: Core, reports: seq<Report>, now: Time, failed: bool)
    requires Shaped(cfg, c) && c.state == HalfOpen && Paid(cfg, c, reports)
    ensures Paid(cfg, Record(cfg, c, now, failed), reports + [Report(now, failed, HalfOpen)])
  {
    hide TripReports, TripFaults, GateFaults, Held, HeldFaults, CountReport;
    ReportsAppend(reports, Report(now, failed, HalfOpen));
    var bs := CountReport(cfg, c.buckets, now, failed);
    CountReportHeld(cfg, c.buckets, now, failed);
    var fewer := c.(buckets := bs, halfOpen := c.halfOpen - 1);
    if failed {
      TransitionTrips(cfg, fewer.(openedAt := now), Open, now);
    } else {
      NothingHeld(|bs|, |bs|);
      TransitionTrips(cfg, fewer.(consecutiveOK := c.consecutiveOK + 1), Closed, now);
    }
  }

  lemma AskPays(cfg: Config, c: Core, reports: seq<Report>, now: Time)
    requires Shaped(cfg, c) && Paid(cfg, c, reports)
    ensures Paid(cfg, Allow(cfg, c, now).0, reports)
  {
    TransitionTrips(cfg, c, HalfOpen, now);
  }

  lemma {:induction false} RunPays(cfg: Config, ops: seq<Op>)
    requires cfg.Ready()
    ensures Paid(cfg, Run(cfg, ops).core, Run(cfg, ops).reports)
  {
    if ops == [] {
      NothingHeld(cfg.buckets, cfg.buckets);
    } else {
      var before, op := ops[..|ops| - 1], ops[|ops| - 1];
      RunPays(cfg, before);
      var w := Run(cfg, before);
      match op {
        case Ask(now) => AskPays(cfg, w.core, w.reports, now);
        case Done(id, now, err) =>
          match w.core.state {
            case Closed => ClosedPays(cfg, w.core, w.reports, now, CountsAsFailure(err));
            case HalfOpen => HalfOpenPays(cfg, w.core, w.reports, now, CountsAsFailure(err));
            case Open => OpenPays(cfg, w.core, w.reports, now, CountsAsFailure(err));
          }
      }
    }
  }

  /** Each trip costs a full gate of reports, and the ratio of it in server faults, none counted
      twice.  No clock is assumed. */
  lemma AmortisedTripCost(cfg: Config, ops: seq<Op>)
    requires cfg.Ready()
    ensures var w := Run(cfg, ops);
            var trips := ClosedTrips(w.core.observed);
            && cfg.minimumRequests * trips <= ClosedReports(w.reports)
            && GateFaults(cfg) * trips as real <= ClosedFaults(w.reports) as real
  {
    hide RunFrom, GateFaults;
    RunPays(cfg, ops);
    PaidInFull(cfg, Run(cfg, ops).core, Run(cfg, ops).reports);
  }

  lemma PaidInFull(cfg: Config, c: Core, reports: seq<Report>)
    requires Paid(cfg, c, reports)
    ensures cfg.minimumRequests * ClosedTrips(c.observed) <= ClosedReports(reports)
    ensures GateFaults(cfg) * ClosedTrips(c.observed) as real <= ClosedFaults(reports) as real
  {
    hide GateFaults, TripReports, TripFaults, ClosedTrips, ClosedReports, ClosedFaults, Held, HeldFaults;
    SaneSums(c.buckets, |c.buckets|);
    TripPrice(cfg, c.observed);
    var volume, faults := TripReports(cfg, c.observed), TripFaults(cfg, c.observed);
    assert volume <= ClosedReports(reports) && faults <= ClosedFaults(reports) as real;
  }

  lemma {:induction false} SaneSums(bs: seq<Bucket>, k: nat)
    requires Sane(bs) && k <= |bs|
    ensures 0 <= HeldFaults(bs, k) <= Held(bs, k)
  {
    if k > 0 {
      SaneSums(bs, k - 1);
    }
  }

  // ----- the observer's walk -----

  ghost predicate LegalEdge(cfg: Config, c: StateChange)
    requires cfg.Validate()
  {
    || (c.from == Closed && c.to == Open && cfg.Trips(c.total, c.failures))
    || (c.from == Open && c.to == HalfOpen)
    || (c.from == HalfOpen && c.to == Closed)
    || (c.from == HalfOpen && c.to == Open)
  }

  /** The changes form one unbroken legal walk from Closed to `now`. */
  ghost predicate LegalWalk(cfg: Config, observed: seq<StateChange>, now: State)
    requires cfg.Validate()
  {
    && (forall i :: 0 <= i < |observed| ==> LegalEdge(cfg, observed[i]))
    && (forall i, j :: 0 <= i && j == i + 1 && j < |observed| ==> observed[j].from == observed[i].to)
    && (observed != [] ==> observed[0].from == Closed)
    && now == if observed == [] then Closed else observed[|observed| - 1].to
  }

  lemma WalkExtends(cfg: Config, observed: seq<StateChange>, now: State, c: StateChange)
    requires cfg.Validate() && LegalWalk(cfg, observed, now) && c.from == now && LegalEdge(cfg, c)
    ensures LegalWalk(cfg, observed + [c], c.to)
  {}

  lemma TransitionWalks(cfg: Config, c: Core, to: State, now: Time)
    requires cfg.Ready() && LegalWalk(cfg, c.observed, c.state)
    requires c.state != to ==>
               LegalEdge(cfg, StateChange(c.state, to, WindowFailures(cfg, c.buckets, now), WindowTotal(cfg, c.buckets, now)))
    ensures LegalWalk(cfg, Transition(cfg, c, to, now).observed, to)
  {
    if c.state != to {
      WalkExtends(cfg, c.observed, c.state,
        StateChange(c.state, to, WindowFailures(cfg, c.buckets, now), WindowTotal(cfg, c.buckets, now)));
    }
  }

  lemma RecordWalks(cfg: Config, c: Core, now: Time, failed: bool)
    requires Shaped(cfg, c) && LegalWalk(cfg, c.observed, c.state)
    ensures LegalWalk(cfg, Record(cfg, c, now, failed).observed, Record(cfg, c, now, failed).state)
  {
    var counted := c.(buckets := CountReport(cfg, c.buckets, now, failed));
    match c.state {
      case HalfOpen =>
        var fewer := counted.(halfOpen := c.halfOpen - 1);
        TransitionWalks(cfg, fewer.(openedAt := now), Open, now);
        TransitionWalks(cfg, fewer.(consecutiveOK := c.consecutiveOK + 1), Closed, now);
      case Closed =>
        if cfg.Trips(WindowTotal(cfg, counted.buckets, now), WindowFailures(cfg, counted.buckets, now)) {
          TransitionWalks(cfg, counted.(openedAt := now), Open, now);
        }
      case Open =>
    }
  }

  lemma {:induction false} ObserverSeesLegalWalk(cfg: Config, ops: seq<Op>)
    requires cfg.Ready()
    ensures LegalWalk(cfg, Run(cfg, ops).core.observed, Run(cfg, ops).core.state)
  {
    if ops != [] {
      var before, op := ops[..|ops| - 1], ops[|ops| - 1];
      ObserverSeesLegalWalk(cfg, before);
      var w := Run(cfg, before);
      match op {
        case Ask(now) =>
          if w.core.state == Open {
            TransitionWalks(cfg, w.core, HalfOpen, now);
          }
        case Done(id, now, err) => RecordWalks(cfg, w.core, now, CountsAsFailure(err));
      }
    }
  }

  // ----- what closing takes -----

  /** While half-open, the reports of the episode are the last ones received, and all succeeded. */
  ghost predicate EpisodeReports(w: World) {
    w.core.state == HalfOpen ==>
      && |w.heard| <= |w.reports|
      && forall i :: |w.reports| - |w.heard| <= i < |w.reports| ==>
           w.reports[i].during == HalfOpen && !w.reports[i].failed
  }

  lemma {:induction false} RunEpisodeReports(cfg: Config, ops: seq<Op>)
    requires cfg.Ready()
    ensures EpisodeReports(Run(cfg, ops))
  {
    if ops != [] {
      var before, op := ops[..|ops| - 1], ops[|ops| - 1];
      RunEpisodeReports(cfg, before);
      RunConserves(cfg, before);
      var w, w' := Run(cfg, before), Run(cfg, ops);
      if op.Done? && op.id < |w.tokens| && op.id !in w.reported && w'.core.state == HalfOpen {
        assert |w.heard + {op.id}| == |w.heard| + 1;
      }
    }
  }

  /** Unless a failure has ended the episode, no call that it heard has failed. */
  ghost predicate HeardSucceeded(w: World) {
    && w.faulty <= w.reported && w.heard <= w.reported
    && (w.core.state != Open ==> w.heard !! w.faulty)
  }

  lemma {:induction false} RunHeardSucceeded(cfg: Config, ops: seq<Op>)
    requires cfg.Ready()
    ensures HeardSucceeded(Run(cfg, ops))
  {
    hide CountReport, WindowTotal, WindowFailures, Conserved, Config.Trips;
    if ops != [] {
      RunHeardSucceeded(cfg, ops[..|ops| - 1]);
    }
  }

  /** A half-open breaker closes on a report exactly when that report is the last of
      HalfOpenSuccesses successes in a row within the episode; closing leaves an empty window. */
  lemma ClosingTakesSuccesses(cfg: Config, ops: seq<Op>, id: nat, now: Time, err: Option<Err>)
    requires cfg.Ready()
    requires var w := Run(cfg, ops); w.core.state == HalfOpen && id < |w.tokens| && id !in w.reported
    ensures var w, w' := Run(cfg, ops), Step(cfg, Run(cfg, ops), Done(id, now, err));
            w'.core.state == Closed <==> !CountsAsFailure(err) && |w.heard| == cfg.halfOpenSuccesses - 1
    ensures var w' := Step(cfg, Run(cfg, ops), Done(id, now, err));
            w'.core.state == Closed ==>
              && cfg.halfOpenSuccesses <= |w'.reports|
              && (forall i :: |w'.reports| - cfg.halfOpenSuccesses <= i < |w'.reports| ==>
                    w'.reports[i].during == HalfOpen && !w'.reports[i].failed)
              && w'.core.buckets == EmptyBuckets(cfg.buckets)
              && forall later :: WindowTotal(cfg, w'.core.buckets, later) == 0
  {
    RunConserves(cfg, ops);
    RunEpisodeReports(cfg, ops);
    var w := Run(cfg, ops);
    assert w.core.consecutiveOK == |w.heard|;
    forall later
      ensures WindowTotal(cfg, EmptyBuckets(cfg.buckets), later) == 0
    {
      NothingTotal(cfg.buckets, later - cfg.window, cfg.buckets);
    }
  }

  lemma {:induction false} NothingTotal(n: nat, cutoff: Time, k: nat)
    requires k <= n
    ensures Totals(EmptyBuckets(n), cutoff, k) == 0
  {
    if k > 0 {
      NothingTotal(n, cutoff, k - 1);
    }
  }

  // ----- client faults are harmless -----

  /** Every report is a success, blames the caller, or is a breaker's own rejection. */
  ghost predicate NoServerFaults(ops: seq<Op>) {
    forall i :: 0 <= i < |ops| && ops[i].Done? ==> !ServerFault(ops[i].err)
  }

  lemma {:induction false} NoFaultsRecorded(cfg: Config, ops: seq<Op>)
    requires cfg.Ready() && NoServerFaults(ops)
    ensures ClosedFaults(Run(cfg, ops).reports) == 0
  {
    if ops != [] {
      var before := ops[..|ops| - 1];
      NoFaultsRecorded(cfg, before);
      if ops[|ops| - 1].Done? {
        CountsIffServerFault(ops[|ops| - 1].err);
      }
      var w, w' := Run(cfg, before), Run(cfg, ops);
      if w'.reports != w.reports {
        assert w'.reports[..|w'.reports| - 1] == w.reports;
      }
    }
  }

  lemma {:induction false} FirstChangeCounts(observed: seq<StateChange>)
    requires observed != [] && IsTrip(observed[0])
    ensures ClosedTrips(observed) > 0
  {
    if |observed| > 1 {
      FirstChangeCounts(observed[..|observed| - 1]);
    }
  }

  /** Without server faults the breaker never leaves Closed and never rejects a call, whatever
      client faults and cancellations it sees. */
  lemma ClientFaultsNeverTrip(cfg: Config, ops: seq<Op>, now: Time)
    requires cfg.Ready() && NoServerFaults(ops)
    ensures Run(cfg, ops).core.state == Closed && Run(cfg, ops).core.observed == []
    ensures Allow(cfg, Run(cfg, ops).core, now).1
  {
    AmortisedTripCost(cfg, ops);
    NoFaultsRecorded(cfg, ops);
    ObserverSeesLegalWalk(cfg, ops);
    var observed := Run(cfg, ops).core.observed;
    assert GateFaults(cfg) > 0.0;
    NothingForPrice(GateFaults(cfg), ClosedTrips(observed));
    if observed != [] {
      assert LegalEdge(cfg, observed[0]);
      FirstChangeCounts(observed);
    }
  }

  lemma NothingForPrice(price: real, n: nat)
    requires price > 0.0 && price * n as real <= 0.0
    ensures n == 0
  {}
}
