/** Concrete runs that take a breaker of any configuration to a given situation; the lemmas that
    show a condition necessary are built from them. */
module BreakerScenarios {
  import opened Wrappers
  import opened GoTime
  import opened Classify
  import opened BreakerCore
  import opened BreakerRuns
  import Window

  /** A server fault. */
  const FAULT: Option<Err> := Some(Err(Coded(Unavailable), []))

  function Asks(n: nat, now: Time): seq<Op> {
    seq(n, i => Ask(now))
  }

  lemma {:induction false} AsksWhileClosed(cfg: Config, n: nat)
    requires cfg.Ready()
    ensures var w := Run(cfg, Asks(n, 0));
            && w.core == Initial(cfg) && |w.tokens| == n && w.reported == {}
            && w.episode == 0 && w.heard == {}
            && forall i :: 0 <= i < n ==> w.tokens[i] == 0
  {
    if n > 0 {
      AsksWhileClosed(cfg, n - 1);
      assert Asks(n, 0)[..n - 1] == Asks(n - 1, 0);
    }
  }

  /** Nothing in `bs` would be counted together with a report made at t. */
  ghost predicate Stale(cfg: Config, bs: seq<Bucket>, t: Time)
    requires cfg.Ready()
  {
    var i := cfg.Shape().Index(t);
    && |bs| == cfg.buckets
    && (forall j :: 0 <= j < |bs| && j != i ==> bs[j] == ZERO_BUCKET)
    && (bs[i].start == cfg.Shape().Start(t) ==> bs[i].total == 0 && bs[i].failures == 0)
  }

  /** `bs` after k faults reported at t. */
  function Faulted(cfg: Config, bs: seq<Bucket>, t: Time, k: nat): (r: seq<Bucket>)
    requires cfg.Ready() && |bs| == cfg.buckets
    ensures |r| == |bs|
  {
    if k == 0 then bs else bs[cfg.Shape().Index(t) := Bucket(cfg.Shape().Start(t), k, k)]
  }

  function FaultedCore(cfg: Config, bs: seq<Bucket>, t: Time, k: nat): Core
    requires cfg.Ready() && |bs| == cfg.buckets
  {
    Initial(cfg).(buckets := Faulted(cfg, bs, t, k))
  }

  lemma {:induction false} FaultedSums(cfg: Config, bs: seq<Bucket>, t: Time, k: nat, m: nat)
    requires cfg.Ready() && Stale(cfg, bs, t) && k > 0 && m <= cfg.buckets
    ensures var counted := if cfg.Shape().Index(t) < m then k else 0;
            && Totals(Faulted(cfg, bs, t, k), t - cfg.window, m) == counted
            && Failures(Faulted(cfg, bs, t, k), t - cfg.window, m) == counted
  {
    if m > 0 {
      FaultedSums(cfg, bs, t, k, m - 1);
      CurrentIsLive(cfg, t);
    }
  }

  lemma CurrentIsLive(cfg: Config, t: Time)
    requires cfg.Ready()
    ensures cfg.Shape().Start(t) > t - cfg.window
  {
    Window.StartIsRecent(cfg.Shape(), t);
  }

  lemma FaultAdds(cfg: Config, bs: seq<Bucket>, t: Time, k: nat)
    requires cfg.Ready() && Stale(cfg, bs, t)
    ensures CountReport(cfg, Faulted(cfg, bs, t, k), t, true) == Faulted(cfg, bs, t, k + 1)
  {
    var i := cfg.Shape().Index(t);
    assert CountReport(cfg, Faulted(cfg, bs, t, k), t, true)[i] == Bucket(cfg.Shape().Start(t), k + 1, k + 1);
  }

  /** One more fault: a full gate of them trips the breaker and is what the observer is told. */
  lemma FaultRecorded(cfg: Config, bs: seq<Bucket>, t: Time, k: nat)
    requires cfg.Ready() && k < cfg.minimumRequests && Stale(cfg, bs, t)
    ensures CountsAsFailure(FAULT)
    ensures var c' := Record(cfg, FaultedCore(cfg, bs, t, k), t, true);
            if k + 1 < cfg.minimumRequests then c' == FaultedCore(cfg, bs, t, k + 1)
            else c'.state == Open && c'.openedAt == t && c'.observed == [StateChange(Closed, Open, k + 1, k + 1)]
  {
    FaultAdds(cfg, bs, t, k);
    FaultedWindow(cfg, bs, t, k + 1);
    AllFaultsTrip(cfg, k + 1);
    hide Record, Faulted, CountReport, WindowTotal, WindowFailures, Config.Trips, Stale;
    ClosedRecord(cfg, FaultedCore(cfg, bs, t, k), t, true, k + 1 >= cfg.minimumRequests);
  }

  lemma FaultedWindow(cfg: Config, bs: seq<Bucket>, t: Time, k: nat)
    requires cfg.Ready() && Stale(cfg, bs, t) && k > 0
    ensures WindowTotal(cfg, Faulted(cfg, bs, t, k), t) == k && WindowFailures(cfg, Faulted(cfg, bs, t, k), t) == k
  {
    FaultedSums(cfg, bs, t, k, cfg.buckets);
  }

  lemma AllFaultsTrip(cfg: Config, n: nat)
    requires cfg.Validate() && n > 0
    ensures cfg.Trips(n, n) <==> n >= cfg.minimumRequests
  {
    assert n as real / n as real == 1.0;
  }
}
