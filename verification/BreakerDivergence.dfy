/** The simulation of `BreakerSimulation` needs its condition: every breaker whose buckets do not
    tile its window parts from the ideal one on some ordered run. */
module BreakerDivergence {
  import opened Wrappers
  import opened GoTime
  import opened Classify
  import opened BreakerCore
  import opened BreakerRuns
  import opened BreakerOutage
  import opened BreakerScenarios
  import opened BreakerSimulation
  import EventLog
  import Window
  import WindowExactness

  /** One success at 0, then k faults at a time that recycles its bucket. */
  function Diverging(cfg: Config, second: Time, k: nat): seq<Op>
    requires cfg.Ready()
  {
    if k == 0 then Asks(cfg.minimumRequests + 1, 0) + [Done(0, 0, None)]
    else Diverging(cfg, second, k - 1) + [Done(k, second, FAULT)]
  }

  lemma {:induction false} DivergingTimely(cfg: Config, second: Time, k: nat)
    requires cfg.Ready() && 0 <= second
    ensures Timely(Diverging(cfg, second, k), 0, second)
  {
    if k > 0 {
      DivergingTimely(cfg, second, k - 1);
    }
  }

  /** The ring after the success. */
  function OneSuccess(cfg: Config): seq<Bucket>
    requires cfg.Ready()
  {
    EmptyBuckets(cfg.buckets)[cfg.Shape().Index(0) := Bucket(cfg.Shape().Start(0), 1, 0)]
  }

  lemma SuccessRecorded(cfg: Config)
    requires cfg.Ready()
    ensures Record(cfg, Initial(cfg), 0, false) == Initial(cfg).(buckets := OneSuccess(cfg))
  {
    var bs := CountReport(cfg, EmptyBuckets(cfg.buckets), 0, false);
    assert bs == OneSuccess(cfg);
    NoFailures(bs, 0 - cfg.window, |bs|);
    var total := WindowTotal(cfg, bs, 0);
    if total >= cfg.minimumRequests {
      assert 0 as real / total as real == 0.0;
    }
  }

  lemma {:induction false} NoFailures(bs: seq<Bucket>, cutoff: Time, k: nat)
    requires k <= |bs| && forall i :: 0 <= i < |bs| ==> bs[i].failures == 0
    ensures Failures(bs, cutoff, k) == 0
  {
    if k > 0 {
      NoFailures(bs, cutoff, k - 1);
    }
  }

  // ----- the ring-based breaker forgets the success -----

  ghost predicate Forgets(cfg: Config, w: World, second: Time, k: nat)
    requires cfg.Ready()
  {
    && |w.tokens| == cfg.minimumRequests + 1
    && (forall i :: i in w.reported ==> i <= k)
    && if k < cfg.minimumRequests then w.core == FaultedCore(cfg, OneSuccess(cfg), second, k)
       else w.core.observed == [StateChange(Closed, Open, k, k)]
  }

  lemma ForgetsMore(cfg: Config, w: World, second: Time, k: nat)
    requires cfg.Ready() && k < cfg.minimumRequests && Stale(cfg, OneSuccess(cfg), second)
    requires Forgets(cfg, w, second, k)
    ensures Forgets(cfg, Step(cfg, w, Done(k + 1, second, FAULT)), second, k + 1)
  {
    FaultRecorded(cfg, OneSuccess(cfg), second, k);
    assert Step(cfg, w, Done(k + 1, second, FAULT)) == DoneStep(cfg, w, k + 1, second, FAULT);
  }

  lemma ForgetsNothingYet(cfg: Config, w: World, second: Time)
    requires cfg.Ready() && w.core == Initial(cfg) && |w.tokens| == cfg.minimumRequests + 1 && w.reported == {}
    ensures Forgets(cfg, Step(cfg, w, Done(0, 0, None)), second, 0)
  {
    SuccessRecorded(cfg);
    assert Step(cfg, w, Done(0, 0, None)) == DoneStep(cfg, w, 0, 0, None);
  }

  lemma RealStart(cfg: Config, second: Time)
    requires cfg.Ready()
    ensures Forgets(cfg, Run(cfg, Diverging(cfg, second, 0)), second, 0)
  {
    var asks := Asks(cfg.minimumRequests + 1, 0);
    AsksWhileClosed(cfg, cfg.minimumRequests + 1);
    RunAppend(cfg, asks, Done(0, 0, None));
    ForgetsNothingYet(cfg, Run(cfg, asks), second);
  }

  lemma RealContinues(cfg: Config, ops: seq<Op>, second: Time, k: nat)
    requires cfg.Ready() && k < cfg.minimumRequests && Stale(cfg, OneSuccess(cfg), second)
    requires Forgets(cfg, Run(cfg, ops), second, k)
    ensures Forgets(cfg, Run(cfg, ops + [Done(k + 1, second, FAULT)]), second, k + 1)
  {
    RunAppend(cfg, ops, Done(k + 1, second, FAULT));
    ForgetsMore(cfg, Run(cfg, ops), second, k);
  }

  lemma {:induction false} RealDiverges(cfg: Config, second: Time, k: nat)
    requires cfg.Ready() && k <= cfg.minimumRequests && Stale(cfg, OneSuccess(cfg), second)
    ensures Forgets(cfg, Run(cfg, Diverging(cfg, second, k)), second, k)
  {
    hide Forgets, RunFrom;
    if k == 0 {
      RealStart(cfg, second);
    } else {
      RealDiverges(cfg, second, k - 1);
      RealContinues(cfg, Diverging(cfg, second, k - 1), second, k - 1);
    }
  }

  // ----- the ideal breaker remembers it -----

  function IdealLog(second: Time, k: nat): seq<Entry> {
    [Entry(0, false)] + seq(k, i => Entry(second, true))
  }

  lemma {:induction false} IdealLogRecent(cfg: Config, second: Time, k: nat)
    requires cfg.Ready()
    requires cfg.Shape().Start(0) > second - cfg.window && cfg.Shape().Start(second) > second - cfg.window
    ensures Recent(cfg, IdealLog(second, k), second) == IdealLog(second, k)
    ensures Faulty(IdealLog(second, k)) == k
  {
    var log := IdealLog(second, k);
    if k == 0 {
      assert log[..0] == [];
    } else {
      IdealLogRecent(cfg, second, k - 1);
      assert log[..|log| - 1] == IdealLog(second, k - 1);
    }
  }

  /** Either untripped with the full log, or tripped on a window that shows the success. */
  ghost predicate Remembers(cfg: Config, s: Ideal, second: Time, k: nat) {
    && s.issued == cfg.minimumRequests + 1
    && (forall i :: i in s.reported ==> i <= k)
    && (|| (s.state == Closed && s.observed == [] && s.log == IdealLog(second, k))
        || (s.state == Open && |s.observed| == 1 && s.observed[0].failures < s.observed[0].total))
  }

  lemma RemembersMore(cfg: Config, s: Ideal, second: Time, k: nat)
    requires cfg.Ready() && k < cfg.minimumRequests && Remembers(cfg, s, second, k)
    requires cfg.Shape().Start(0) > second - cfg.window && cfg.Shape().Start(second) > second - cfg.window
    ensures Remembers(cfg, IdealDone(cfg, s, k + 1, second, true), second, k + 1)
  {
    if s.state == Closed {
      IdealLogRecent(cfg, second, k + 1);
      assert IdealLog(second, k + 1) == s.log + [Entry(second, true)];
      ClosedIdeal(cfg, s, k + 1, second, true, IdealGate(cfg, IdealLog(second, k + 1)));
    }
  }

  lemma {:induction false} IdealAsks(cfg: Config, n: nat)
    requires cfg.Ready()
    ensures IdealRun(cfg, Asks(n, 0)) == IdealStart().(issued := n)
  {
    if n > 0 {
      IdealAsks(cfg, n - 1);
      assert Asks(n, 0)[..n - 1] == Asks(n - 1, 0);
    }
  }

  lemma IdealAppend(cfg: Config, ops: seq<Op>, op: Op)
    requires cfg.Ready()
    ensures IdealRun(cfg, ops + [op]) == IdealStep(cfg, IdealRun(cfg, ops), op)
  {
    assert (ops + [op])[..|ops|] == ops;
  }

  lemma IdealStarts(cfg: Config, second: Time)
    requires cfg.Ready()
    ensures Remembers(cfg, IdealRun(cfg, Diverging(cfg, second, 0)), second, 0)
  {
    var asks := Asks(cfg.minimumRequests + 1, 0);
    IdealAsks(cfg, cfg.minimumRequests + 1);
    IdealAppend(cfg, asks, Done(0, 0, None));
    FirstSuccess(cfg, cfg.minimumRequests + 1, second);
  }

  lemma IdealContinues(cfg: Config, ops: seq<Op>, second: Time, k: nat)
    requires cfg.Ready() && k < cfg.minimumRequests && Remembers(cfg, IdealRun(cfg, ops), second, k)
    requires cfg.Shape().Start(0) > second - cfg.window && cfg.Shape().Start(second) > second - cfg.window
    ensures Remembers(cfg, IdealRun(cfg, ops + [Done(k + 1, second, FAULT)]), second, k + 1)
  {
    hide IdealRun, IdealDone, Remembers;
    IdealAppend(cfg, ops, Done(k + 1, second, FAULT));
    RemembersMore(cfg, IdealRun(cfg, ops), second, k);
  }

  lemma {:induction false} IdealDiverges(cfg: Config, second: Time, k: nat)
    requires cfg.Ready() && k <= cfg.minimumRequests
    requires cfg.Shape().Start(0) > second - cfg.window && cfg.Shape().Start(second) > second - cfg.window
    ensures Remembers(cfg, IdealRun(cfg, Diverging(cfg, second, k)), second, k)
  {
    hide Remembers, IdealRun;
    if k == 0 {
      IdealStarts(cfg, second);
    } else {
      IdealDiverges(cfg, second, k - 1);
      IdealContinues(cfg, Diverging(cfg, second, k - 1), second, k - 1);
    }
  }

  lemma FirstSuccess(cfg: Config, n: nat, second: Time)
    requires cfg.Ready() && n == cfg.minimumRequests + 1
    ensures Remembers(cfg, IdealStep(cfg, IdealStart().(issued := n), Done(0, 0, None)), second, 0)
  {
    var log := IdealLog(second, 0);
    assert log == [Entry(0, false)] == [] + [Entry(0, false)] && log[..0] == [];
    NoFaultsNoGate(cfg, Recent(cfg, log, 0), Entry(0, false));
    ClosedIdeal(cfg, IdealStart().(issued := n), 0, 0, false, false);
  }

  lemma NoFaultsNoGate(cfg: Config, recent: seq<Entry>, e: Entry)
    requires cfg.Ready() && !e.failed && (recent == [] || recent == [e])
    ensures !IdealGate(cfg, recent)
  {
    if recent == [e] {
      assert [e][..0] == [];
    }
  }

  /** The ring-based breaker is indistinguishable from the ideal one on every ordered run exactly
      when its buckets tile its window. */
  lemma BreakerMeetsIdealIff(cfg: Config)
    requires cfg.Ready()
    ensures cfg.Shape().Tiled() <==>
            forall ops: seq<Op>, now: Time :: Timely(ops, 0, now) ==>
              var w, s := Run(cfg, ops), IdealRun(cfg, ops);
              w.core.state == s.state && w.core.observed == s.observed && |w.tokens| == s.issued
  {
    if cfg.Shape().Tiled() {
      forall ops: seq<Op>, now: Time | Timely(ops, 0, now)
        ensures var w, s := Run(cfg, ops), IdealRun(cfg, ops);
                w.core.state == s.state && w.core.observed == s.observed && |w.tokens| == s.issued
      {
        BreakerMeetsIdeal(cfg, ops, now);
      }
    } else {
      var second := WindowExactness.LosingTime(cfg.Shape());
      var ops := Diverging(cfg, second, cfg.minimumRequests);
      DivergingTimely(cfg, second, cfg.minimumRequests);
      RealDiverges(cfg, second, cfg.minimumRequests);
      IdealDiverges(cfg, second, cfg.minimumRequests);
      assert Run(cfg, ops).core.observed != IdealRun(cfg, ops).observed;
    }
  }
}
