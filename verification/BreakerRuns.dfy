/** Runs of one breaker: any interleaving of permission requests and completion reports, under
    any clock.  The run remembers which half-open episode admitted each call, which the breaker
    itself does not. */
module BreakerRuns {
  import opened Wrappers
  import opened GoTime
  import opened Classify
  import opened BreakerCore

  datatype Op =
    | Ask(now: Time)
    | Done(id: nat, now: Time, err: Option<Err>)

  /** A report as the breaker received it. */
  datatype Report = Report(at: Time, failed: bool, during: State)

  /** `tokens[i]` is the half-open episode (1, 2, ...) that admitted call i, or 0 for a call
      admitted while closed; `heard` are the calls that reported during the current episode;
      `faulty` are the calls that reported a failure. */
  datatype World = World(
    core: Core,
    tokens: seq<nat>,
    reported: set<nat>,
    heard: set<nat>,
    episode: nat,
    reports: seq<Report>,
    faulty: set<nat>)

  function Start(cfg: Config): World
    requires cfg.Ready()
  {
    World(Initial(cfg), [], {}, {}, 0, [], {})
  }

  function Step(cfg: Config, w: World, op: Op): (w': World)
    requires Shaped(cfg, w.core)
    ensures Shaped(cfg, w'.core)
  {
    match op
    case Ask(now) => AskStep(cfg, w, now)
    case Done(id, now, err) =>
      // A call that was never admitted has no token, and a token reports once.
      if id >= |w.tokens| || id in w.reported then w else DoneStep(cfg, w, id, now, err)
  }

  function AskStep(cfg: Config, w: World, now: Time): (w': World)
    requires Shaped(cfg, w.core)
    ensures Shaped(cfg, w'.core)
  {
    var (core, ok) := Allow(cfg, w.core, now);
    var entered := w.core.state == Open && core.state == HalfOpen;
    var episode := if entered then w.episode + 1 else w.episode;
    w.(core := core,
       tokens := if ok then w.tokens + [if core.state == HalfOpen then episode else 0] else w.tokens,
       heard := if entered then {} else w.heard,
       episode := episode)
  }

  function DoneStep(cfg: Config, w: World, id: nat, now: Time, err: Option<Err>): (w': World)
    requires Shaped(cfg, w.core)
    ensures Shaped(cfg, w'.core)
  {
    w.(core := Record(cfg, w.core, now, CountsAsFailure(err)),
       reported := w.reported + {id},
       heard := if w.core.state == HalfOpen then w.heard + {id} else w.heard,
       reports := w.reports + [Report(now, CountsAsFailure(err), w.core.state)],
       faulty := if CountsAsFailure(err) then w.faulty + {id} else w.faulty)
  }

  function RunFrom(cfg: Config, w: World, ops: seq<Op>): (w': World)
    requires Shaped(cfg, w.core)
    ensures Shaped(cfg, w'.core)
  {
    if ops == [] then w
    else Step(cfg, RunFrom(cfg, w, ops[..|ops| - 1]), ops[|ops| - 1])
  }

  function Run(cfg: Config, ops: seq<Op>): (w: World)
    requires cfg.Ready()
    ensures Shaped(cfg, w.core)
  {
    RunFrom(cfg, Start(cfg), ops)
  }

  lemma RunFromAppend(cfg: Config, w: World, ops: seq<Op>, op: Op)
    requires Shaped(cfg, w.core)
    ensures RunFrom(cfg, w, ops + [op]) == Step(cfg, RunFrom(cfg, w, ops), op)
  {
    assert (ops + [op])[..|ops|] == ops;
  }

  lemma RunAppend(cfg: Config, ops: seq<Op>, op: Op)
    requires cfg.Ready()
    ensures Run(cfg, ops + [op]) == Step(cfg, Run(cfg, ops), op)
  {
    RunFromAppend(cfg, Start(cfg), ops, op);
  }

  // ----- sets of calls -----

  /** The calls that episode e admitted. */
  ghost function Admitted(w: World, e: nat): set<nat> {
    set i | 0 <= i < |w.tokens| && w.tokens[i] == e
  }

  ghost function Own(w: World): set<nat> {
    Admitted(w, w.episode)
  }

  /** Probes of the current episode that have not reported. */
  ghost function Outstanding(w: World): set<nat> {
    Own(w) - w.reported
  }

  /** Calls from before the episode that reported during it. */
  ghost function Late(w: World): set<nat> {
    w.heard - Own(w)
  }

  lemma AdmittedAppend(w: World, e: nat, e': nat)
    ensures Admitted(w.(tokens := w.tokens + [e']), e) ==
            if e' == e then Admitted(w, e) + {|w.tokens|} else Admitted(w, e)
    ensures |Admitted(w.(tokens := w.tokens + [e']), e)| == |Admitted(w, e)| + if e' == e then 1 else 0
  {
    var w' := w.(tokens := w.tokens + [e']);
    assert Admitted(w', e) == if e' == e then Admitted(w, e) + {|w.tokens|} else Admitted(w, e);
  }

  // ----- half-open conservation -----

  ghost predicate Consistent(w: World) {
    && (forall i :: 0 <= i < |w.tokens| ==> w.tokens[i] <= w.episode)
    && (forall i :: i in w.reported ==> i < |w.tokens|)
    && w.heard <= w.reported
  }

  /** The probe accounting of one half-open episode. */
  ghost predicate Episode(cfg: Config, w: World) {
    && 1 <= w.episode
    && w.core.consecutiveOK == |w.heard|
    && w.core.halfOpen + w.core.consecutiveOK == |Own(w)|
    && 1 <= |Own(w)|
    && w.core.halfOpen <= cfg.halfOpenMaxCalls
    && 0 <= w.core.consecutiveOK < cfg.halfOpenSuccesses
    && Own(w) * w.reported <= w.heard
  }

  function EpisodeCap(cfg: Config): int {
    cfg.halfOpenMaxCalls + cfg.halfOpenSuccesses - 1
  }

  ghost predicate Conserved(cfg: Config, w: World) {
    && Consistent(w)
    && (w.core.state == HalfOpen ==> Episode(cfg, w))
    && (w.core.state != HalfOpen ==> w.core.halfOpen == 0 && w.core.consecutiveOK == 0)
    && forall e :: 1 <= e ==> |Admitted(w, e)| <= EpisodeCap(cfg)
  }

  lemma RejectedConserves(cfg: Config, w: World, now: Time)
    requires Shaped(cfg, w.core) && Conserved(cfg, w) && !Allow(cfg, w.core, now).1
    ensures Conserved(cfg, AskStep(cfg, w, now))
  {
    var w' := AskStep(cfg, w, now);
    assert forall e: nat :: Admitted(w', e) == Admitted(w, e);
  }

  /** An admission adds its call to its own episode and to no other. */
  lemma AdmittedOne(w: World, w': World, e': nat)
    requires w'.tokens == w.tokens + [e']
    ensures forall e: nat :: |Admitted(w', e)| == |Admitted(w, e)| + if e' == e then 1 else 0
    ensures Admitted(w', e') == Admitted(w, e') + {|w.tokens|}
  {
    forall e: nat
      ensures |Admitted(w', e)| == |Admitted(w, e)| + if e' == e then 1 else 0
    {
      AdmittedAppend(w, e, e');
      assert Admitted(w', e) == Admitted(w.(tokens := w'.tokens), e);
    }
    AdmittedAppend(w, e', e');
    assert Admitted(w', e') == Admitted(w.(tokens := w'.tokens), e');
  }

  lemma AdmissionConserves(cfg: Config, w: World, now: Time)
    requires Shaped(cfg, w.core) && Conserved(cfg, w) && Allow(cfg, w.core, now).1
    ensures Conserved(cfg, AskStep(cfg, w, now))
  {
    var w' := AskStep(cfg, w, now);
    var e' := w'.tokens[|w.tokens|];
    AdmittedOne(w, w', e');
    if w.core.state == Open {
      assert Admitted(w, w'.episode) == {};
    }
    if w'.core.state == HalfOpen {
      assert Own(w') * w'.reported <= w'.heard;
      assert Episode(cfg, w');
    }
  }

  lemma DoneConserves(cfg: Config, w: World, id: nat, now: Time, err: Option<Err>)
    requires Shaped(cfg, w.core) && Conserved(cfg, w) && id < |w.tokens| && id !in w.reported
    ensures Conserved(cfg, DoneStep(cfg, w, id, now, err))
  {
    var w' := DoneStep(cfg, w, id, now, err);
    assert forall e: nat :: Admitted(w', e) == Admitted(w, e);
    if w'.core.state == HalfOpen {
      assert Own(w') == Own(w);
      assert w'.heard == w.heard + {id} && id !in w.heard;
    }
  }

  lemma {:induction false} RunConserves(cfg: Config, ops: seq<Op>)
    requires cfg.Ready()
    ensures Conserved(cfg, Run(cfg, ops))
  {
    if ops == [] {
      assert forall e: nat :: Admitted(Start(cfg), e) == {};
    } else {
      var before, op := ops[..|ops| - 1], ops[|ops| - 1];
      RunConserves(cfg, before);
      var w := Run(cfg, before);
      match op {
        case Ask(now) =>
          if Allow(cfg, w.core, now).1 {
            AdmissionConserves(cfg, w, now);
          } else {
            RejectedConserves(cfg, w, now);
          }
        case Done(id, now, err) =>
          if id < |w.tokens| && id !in w.reported {
            DoneConserves(cfg, w, id, now, err);
          }
      }
    }
  }

  /** In every reachable half-open state the two counters add up to the calls the episode has
      admitted, however late reports interleave; elsewhere both are zero. */
  lemma HalfOpenConservation(cfg: Config, ops: seq<Op>)
    requires cfg.Ready()
    ensures var w := Run(cfg, ops);
            if w.core.state == HalfOpen then
              && w.core.halfOpen + w.core.consecutiveOK == |Own(w)|
              && 2 - cfg.halfOpenSuccesses <= w.core.halfOpen <= cfg.halfOpenMaxCalls
              && 0 <= w.core.consecutiveOK < cfg.halfOpenSuccesses
            else w.core.halfOpen == 0 && w.core.consecutiveOK == 0
  {
    RunConserves(cfg, ops);
  }

  /** No half-open episode, past or present, admits more than this many calls. */
  lemma EpisodeAdmissions(cfg: Config, ops: seq<Op>, e: nat)
    requires cfg.Ready() && 1 <= e
    ensures |Admitted(Run(cfg, ops), e)| <= cfg.halfOpenMaxCalls + cfg.halfOpenSuccesses - 1
  {
    RunConserves(cfg, ops);
  }

  // ----- an episode's own probes, and no wedging -----

  /** The episode's own probes that are still out are `halfOpen` plus the late reports it was
      wrongly credited with. */
  lemma ProbesOutstanding(cfg: Config, ops: seq<Op>)
    requires cfg.Ready() && Run(cfg, ops).core.state == HalfOpen
    ensures var w := Run(cfg, ops); |Outstanding(w)| == w.core.halfOpen + |Late(w)|
    ensures var w := Run(cfg, ops); Late(w) == {} ==> 0 <= w.core.halfOpen <= cfg.halfOpenMaxCalls
  {
    RunConserves(cfg, ops);
    EpisodeProbes(cfg, Run(cfg, ops));
  }

  lemma EpisodeProbes(cfg: Config, w: World)
    requires Conserved(cfg, w) && w.core.state == HalfOpen
    ensures |Outstanding(w)| == w.core.halfOpen + |Late(w)|
  {
    var own, heard := Own(w), w.heard;
    assert own * w.reported == own * heard;
    SplitSize(own, w.reported);
    SplitSize(heard, own);
    assert own * heard == heard * own;
  }

  lemma SplitSize(a: set<nat>, b: set<nat>)
    ensures |a| == |a * b| + |a - b|
  {
    assert a == (a * b) + (a - b);
  }

  /** A half-open breaker whose own probes have all reported admits the next call. */
  lemma NeverWedged(cfg: Config, ops: seq<Op>, now: Time)
    requires cfg.Ready() && Run(cfg, ops).core.state == HalfOpen && Outstanding(Run(cfg, ops)) == {}
    ensures Allow(cfg, Run(cfg, ops).core, now).1
  {
    ProbesOutstanding(cfg, ops);
  }
}
