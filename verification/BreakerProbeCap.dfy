/** Exactly when a half-open episode keeps its own probes within HalfOpenMaxCalls.  Late reports of
    calls admitted before the episode free probe slots they never took, so the cap on the episode's
    own probes is only kept when its first success already closes the breaker.  Probes of earlier
    episodes that are still out come on top: see `BreakerPromptness`. */
module BreakerProbeCap {
  import opened Wrappers
  import opened GoTime
  import opened Classify
  import opened BreakerCore
  import opened BreakerRuns
  import opened BreakerScenarios

  /** On every run, the unanswered probes of the current episode stay within the configured cap. */
  ghost predicate CapKept(cfg: Config)
    requires cfg.Ready()
  {
    forall ops: seq<Op> :: Run(cfg, ops).core.state == HalfOpen ==>
      |Outstanding(Run(cfg, ops))| <= cfg.halfOpenMaxCalls
  }

  /** The run that puts MinimumRequests faults through a closed breaker while the first `spare` calls
      stay out. */
  function Tripping(cfg: Config, spare: nat, k: nat): seq<Op>
    requires cfg.Ready()
  {
    if k == 0 then Asks(spare + cfg.minimumRequests, 0)
    else Tripping(cfg, spare, k - 1) + [Done(spare + k - 1, 0, FAULT)]
  }

  ghost predicate Tripped(cfg: Config, spare: nat, w: World, k: nat)
    requires cfg.Ready()
  {
    && |w.tokens| == spare + cfg.minimumRequests
    && (forall i :: 0 <= i < |w.tokens| ==> w.tokens[i] == 0)
    && w.episode == 0
    && (forall i :: i in w.reported <==> spare <= i < spare + k)
    && if k < cfg.minimumRequests then w.core == FaultedCore(cfg, EmptyBuckets(cfg.buckets), 0, k)
       else w.core.state == Open && w.core.openedAt == 0
  }

  lemma OneMoreFault(cfg: Config, spare: nat, w: World, k: nat)
    requires cfg.Ready() && k < cfg.minimumRequests && Tripped(cfg, spare, w, k)
    ensures Tripped(cfg, spare, Step(cfg, w, Done(spare + k, 0, FAULT)), k + 1)
  {
    FaultRecorded(cfg, EmptyBuckets(cfg.buckets), 0, k);
  }

  lemma NotYetTripped(cfg: Config, spare: nat)
    requires cfg.Ready()
    ensures Tripped(cfg, spare, Run(cfg, Asks(spare + cfg.minimumRequests, 0)), 0)
  {
    AsksWhileClosed(cfg, spare + cfg.minimumRequests);
    hide Run;
  }

  lemma {:induction false} TrippingRun(cfg: Config, spare: nat, k: nat)
    requires cfg.Ready() && k <= cfg.minimumRequests
    ensures Tripped(cfg, spare, Run(cfg, Tripping(cfg, spare, k)), k)
  {
    hide Run, Tripped;
    if k == 0 {
      NotYetTripped(cfg, spare);
    } else {
      TrippingRun(cfg, spare, k - 1);
      RunAppend(cfg, Tripping(cfg, spare, k - 1), Done(spare + k - 1, 0, FAULT));
      OneMoreFault(cfg, spare, Run(cfg, Tripping(cfg, spare, k - 1)), k - 1);
    }
  }

  /** Then, after the open period, p probes. */
  function Probing(cfg: Config, spare: nat, p: nat): seq<Op>
    requires cfg.Ready()
  {
    Tripping(cfg, spare, cfg.minimumRequests) + Asks(p, cfg.openDuration)
  }

  ghost predicate ProbesOut(cfg: Config, spare: nat, w: World, p: nat) {
    && |w.tokens| == spare + cfg.minimumRequests + p
    && (forall i :: 0 <= i < |w.tokens| ==> w.tokens[i] == if i < spare + cfg.minimumRequests then 0 else 1)
    && (forall i :: i in w.reported ==> i < spare + cfg.minimumRequests)
  }

  lemma {:induction false} ProbingRun(cfg: Config, spare: nat, p: nat)
    requires cfg.Ready() && 1 <= p <= cfg.halfOpenMaxCalls
    ensures var w := Run(cfg, Probing(cfg, spare, p));
            && w.core.state == HalfOpen && w.core.halfOpen == p && w.core.consecutiveOK == 0
            && w.episode == 1 && ProbesOut(cfg, spare, w, p)
            && (forall i :: i in w.reported <==> spare <= i < spare + cfg.minimumRequests)
  {
    var ops := Probing(cfg, spare, p);
    assert ops[..|ops| - 1] == Probing(cfg, spare, p - 1) && ops[|ops| - 1] == Ask(cfg.openDuration);
    if p == 1 {
      assert Probing(cfg, spare, 0) == Tripping(cfg, spare, cfg.minimumRequests);
      TrippingRun(cfg, spare, cfg.minimumRequests);
    } else {
      ProbingRun(cfg, spare, p - 1);
    }
  }

  /** Finally the late success of call 0 frees a slot, and one more probe takes it. */
  function Overshoot(cfg: Config): seq<Op>
    requires cfg.Ready()
  {
    Probing(cfg, 1, cfg.halfOpenMaxCalls) + [Done(0, cfg.openDuration, None)] + [Ask(cfg.openDuration)]
  }

  /** The consecutive numbers lo, ..., lo + n - 1. */
  ghost function Interval(lo: nat, n: nat): (s: set<nat>)
    ensures forall i :: i in s <==> lo <= i < lo + n
    ensures |s| == n
  {
    if n == 0 then {} else Interval(lo, n - 1) + {lo + n - 1}
  }

  lemma LateSuccessFreesSlot(cfg: Config, w: World)
    requires Shaped(cfg, w.core) && cfg.halfOpenSuccesses > 1
    requires w.core.state == HalfOpen && w.core.halfOpen == cfg.halfOpenMaxCalls && w.core.consecutiveOK == 0
    requires w.episode == 1 && 0 !in w.reported && ProbesOut(cfg, 1, w, cfg.halfOpenMaxCalls)
    ensures var w' := Step(cfg, Step(cfg, w, Done(0, cfg.openDuration, None)), Ask(cfg.openDuration));
            w'.core.state == HalfOpen && w'.episode == 1 && ProbesOut(cfg, 1, w', cfg.halfOpenMaxCalls + 1)
  {
    var w1 := Step(cfg, w, Done(0, cfg.openDuration, None));
    assert w1 == DoneStep(cfg, w, 0, cfg.openDuration, None);
    assert w1.core.state == HalfOpen && w1.core.halfOpen == cfg.halfOpenMaxCalls - 1;
  }

  lemma OvershootRun(cfg: Config)
    requires cfg.Ready() && cfg.halfOpenSuccesses > 1
    ensures var w := Run(cfg, Overshoot(cfg));
            w.core.state == HalfOpen && |Outstanding(w)| == cfg.halfOpenMaxCalls + 1
  {
    var probing, late := Probing(cfg, 1, cfg.halfOpenMaxCalls), Done(0, cfg.openDuration, None);
    ProbingRun(cfg, 1, cfg.halfOpenMaxCalls);
    RunAppend(cfg, probing, late);
    RunAppend(cfg, probing + [late], Ask(cfg.openDuration));
    LateSuccessFreesSlot(cfg, Run(cfg, probing));
    ProbesCounted(cfg, Run(cfg, Overshoot(cfg)), cfg.halfOpenMaxCalls + 1);
  }

  lemma ProbesCounted(cfg: Config, w: World, p: nat)
    requires cfg.Ready() && w.episode == 1 && ProbesOut(cfg, 1, w, p)
    ensures |Outstanding(w)| == p
  {
    assert Outstanding(w) == Interval(cfg.minimumRequests + 1, p);
  }

  /** Every episode keeps its own unanswered probes within the cap, on every run, exactly when one
      success closes the breaker. */
  lemma ProbeCapIff(cfg: Config)
    requires cfg.Ready()
    ensures CapKept(cfg) <==> cfg.halfOpenSuccesses == 1
  {
    if cfg.halfOpenSuccesses == 1 {
      forall ops: seq<Op> | Run(cfg, ops).core.state == HalfOpen
        ensures |Outstanding(Run(cfg, ops))| <= cfg.halfOpenMaxCalls
      {
        RunConserves(cfg, ops);
        ProbesOutstanding(cfg, ops);
        assert Run(cfg, ops).heard == {};
      }
    } else {
      OvershootRun(cfg);
    }
  }

  // ----- how far the count goes below zero -----

  /** One probe is out when the first k spare calls succeed. */
  function Draining(cfg: Config, k: nat): seq<Op>
    requires cfg.Ready()
  {
    if k == 0 then Probing(cfg, cfg.halfOpenSuccesses - 1, 1)
    else Draining(cfg, k - 1) + [Done(k - 1, cfg.openDuration, None)]
  }

  ghost predicate Drained(cfg: Config, w: World, k: nat) {
    && w.core.state == HalfOpen && w.core.halfOpen == 1 - k && w.core.consecutiveOK == k
    && |w.tokens| >= cfg.halfOpenSuccesses - 1
    && forall i :: k <= i < cfg.halfOpenSuccesses - 1 ==> i !in w.reported
  }

  lemma OneMoreDrained(cfg: Config, w: World, k: nat)
    requires Shaped(cfg, w.core) && k < cfg.halfOpenSuccesses - 1 && Drained(cfg, w, k)
    ensures Drained(cfg, Step(cfg, w, Done(k, cfg.openDuration, None)), k + 1)
  {
    hide CountReport;
    assert Step(cfg, w, Done(k, cfg.openDuration, None)) == DoneStep(cfg, w, k, cfg.openDuration, None);
  }

  lemma {:induction false} DrainingRun(cfg: Config, k: nat)
    requires cfg.Ready() && k <= cfg.halfOpenSuccesses - 1
    ensures Drained(cfg, Run(cfg, Draining(cfg, k)), k)
  {
    if k == 0 {
      ProbingRun(cfg, cfg.halfOpenSuccesses - 1, 1);
    } else {
      hide Run, Drained;
      DrainingRun(cfg, k - 1);
      RunAppend(cfg, Draining(cfg, k - 1), Done(k - 1, cfg.openDuration, None));
      OneMoreDrained(cfg, Run(cfg, Draining(cfg, k - 1)), k - 1);
    }
  }

  /** The lower bound of `HalfOpenConservation` is reached, for every configuration. */
  lemma LowestCount(cfg: Config)
    requires cfg.Ready()
    ensures var w := Run(cfg, Draining(cfg, cfg.halfOpenSuccesses - 1));
            w.core.state == HalfOpen && w.core.halfOpen == 2 - cfg.halfOpenSuccesses
  {
    DrainingRun(cfg, cfg.halfOpenSuccesses - 1);
  }

  /** So the count of probes never goes below zero exactly when at most two successes close the
      breaker. */
  lemma CountNeverNegativeIff(cfg: Config)
    requires cfg.Ready()
    ensures (forall ops: seq<Op> :: Run(cfg, ops).core.halfOpen >= 0) <==> cfg.halfOpenSuccesses <= 2
  {
    if cfg.halfOpenSuccesses <= 2 {
      forall ops: seq<Op>
        ensures Run(cfg, ops).core.halfOpen >= 0
      {
        HalfOpenConservation(cfg, ops);
      }
    } else {
      LowestCount(cfg);
    }
  }
}
