/** What half-open promises about all probes that are out, of this episode and of earlier ones, and
    about whose successes close the breaker.  Nothing, for any configuration, if calls may stay out
    for as long as they like: a trip forgets the probes that are out.  Everything, if calls are
    limited in time and the limit is no longer than OpenDuration. */
module BreakerPromptness {
  import opened Wrappers
  import opened GoTime
  import opened Classify
  import opened BreakerCore
  import opened BreakerRuns
  import opened BreakerHistory
  import opened BreakerOutage
  import opened BreakerScenarios
  import opened BreakerProbeCap

  /** All probes that have not been answered, whichever episode admitted them. */
  ghost function ProbesInFlight(w: World): set<nat> {
    set i | 0 <= i < |w.tokens| && w.tokens[i] >= 1 && i !in w.reported
  }

  /** When each call was admitted. */
  function Admissions(cfg: Config, ops: seq<Op>): (times: seq<Time>)
    requires cfg.Ready()
    ensures |times| == |Run(cfg, ops).tokens|
  {
    if ops == [] then []
    else
      var before, op := ops[..|ops| - 1], ops[|ops| - 1];
      Admissions(cfg, before)
      + if op.Ask? && Allow(cfg, Run(cfg, before).core, op.now).1 then [op.now] else []
  }

  /** At time t every call that is out was admitted less than `limit` ago. */
  ghost predicate OutLessThan(w: World, admitted: seq<Time>, t: Time, limit: int)
    requires |admitted| == |w.tokens|
  {
    forall i :: 0 <= i < |admitted| && i !in w.reported ==> t - admitted[i] < limit
  }

  /** Every call reports in less than `limit`: at no reading of the clock has one been out longer. */
  ghost predicate Prompt(cfg: Config, ops: seq<Op>, limit: int)
    requires cfg.Ready()
  {
    ops == [] ||
    (var before := ops[..|ops| - 1];
     && Prompt(cfg, before, limit)
     && OutLessThan(Run(cfg, before), Admissions(cfg, before), TimeOf(ops[|ops| - 1]), limit))
  }

  // ----- with prompt calls -----

  /** Calls are admitted in the past, an open breaker opened after the last admission, and during a
      half-open episode only its own probes are out. */
  ghost predicate Settled(cfg: Config, w: World, admitted: seq<Time>, last: Time) {
    && |admitted| == |w.tokens|
    && (forall i :: 0 <= i < |admitted| ==> admitted[i] <= last)
    && (w.core.state == Open ==> forall i :: 0 <= i < |admitted| ==> admitted[i] <= w.core.openedAt)
    && (w.core.state == HalfOpen ==> forall i :: 0 <= i < |w.tokens| && w.tokens[i] != w.episode ==> i in w.reported)
    && w.heard <= Own(w)
    && |ProbesInFlight(w)| <= cfg.halfOpenMaxCalls
  }

  lemma NoneInFlight(cfg: Config, w: World, w': World)
    requires Conserved(cfg, w) && w.core.state == Open && w'.core.state == HalfOpen && Conserved(cfg, w')
    requires w'.tokens == w.tokens + [w.episode + 1] && w'.episode == w.episode + 1
    requires w'.reported == w.reported && w'.heard == {}
    requires forall i :: 0 <= i < |w.tokens| ==> i in w.reported
    ensures ProbesInFlight(w') == {|w.tokens|}
    ensures forall i :: 0 <= i < |w'.tokens| && w'.tokens[i] != w'.episode ==> i in w'.reported
  {}

  /** In an episode in which only its own probes are out, they are what `halfOpen` counts. */
  lemma OwnInFlight(cfg: Config, w: World)
    requires Conserved(cfg, w) && w.core.state == HalfOpen && w.heard <= Own(w)
    requires forall i :: 0 <= i < |w.tokens| && w.tokens[i] != w.episode ==> i in w.reported
    ensures |ProbesInFlight(w)| <= cfg.halfOpenMaxCalls
  {
    assert ProbesInFlight(w) == Outstanding(w);
    assert Late(w) == {};
    EpisodeProbes(cfg, w);
  }

  lemma AskSettles(cfg: Config, w: World, admitted: seq<Time>, last: Time, now: Time)
    requires Shaped(cfg, w.core) && Conserved(cfg, w) && Settled(cfg, w, admitted, last) && last <= now
    requires OutLessThan(w, admitted, now, cfg.openDuration)
    requires Conserved(cfg, AskStep(cfg, w, now))
    ensures Settled(cfg, AskStep(cfg, w, now), admitted + if Allow(cfg, w.core, now).1 then [now] else [], now)
  {
    var w' := AskStep(cfg, w, now);
    match w.core.state {
      case Closed =>
        assert ProbesInFlight(w') == ProbesInFlight(w);
        assert w.heard <= Own(w');
      case Open =>
        if now - w.core.openedAt >= cfg.openDuration {
          NoneInFlight(cfg, w, w');
        }
      case HalfOpen =>
        assert Own(w) <= Own(w');
        OwnInFlight(cfg, w');
    }
  }

  lemma DoneSettles(cfg: Config, w: World, admitted: seq<Time>, last: Time, id: nat, now: Time, err: Option<Err>)
    requires Shaped(cfg, w.core) && Conserved(cfg, w) && Settled(cfg, w, admitted, last) && last <= now
    requires id < |w.tokens| && id !in w.reported
    ensures Settled(cfg, DoneStep(cfg, w, id, now, err), admitted, now)
  {
    hide CountReport, WindowTotal, WindowFailures, Conserved;
    var w' := DoneStep(cfg, w, id, now, err);
    assert Own(w') == Own(w);
    FewerInFlight(w, w', id);
    RecordOpens(cfg, w.core, now, CountsAsFailure(err));
  }

  lemma FewerInFlight(w: World, w': World, id: nat)
    requires w'.tokens == w.tokens && w'.reported == w.reported + {id}
    ensures |ProbesInFlight(w')| <= |ProbesInFlight(w)|
  {
    var a, b := ProbesInFlight(w'), ProbesInFlight(w);
    assert a <= b;
    SplitSize(b, a);
    assert b * a == a;
  }

  /** A report either leaves an open breaker as it is or opens it now. */
  lemma RecordOpens(cfg: Config, c: Core, now: Time, failed: bool)
    requires Shaped(cfg, c)
    ensures var c' := Record(cfg, c, now, failed);
            && (c'.state == Open ==> if c.state == Open then c'.openedAt == c.openedAt else c'.openedAt == now)
            && (c'.state == HalfOpen ==> c.state == HalfOpen)
  {
    hide CountReport, WindowTotal, WindowFailures, Config.Trips;
  }

  lemma {:induction false} PromptRunSettles(cfg: Config, ops: seq<Op>, from: Time, to: Time)
    requires cfg.Ready() && Timely(ops, from, to) && Prompt(cfg, ops, cfg.openDuration)
    ensures Settled(cfg, Run(cfg, ops), Admissions(cfg, ops), LastTime(from, ops))
  {
    hide Conserved, Settled;
    if ops == [] {
      StartSettled(cfg, from);
    } else {
      var before, op := ops[..|ops| - 1], ops[|ops| - 1];
      PromptRunSettles(cfg, before, from, to);
      RunConserves(cfg, before);
      RunConserves(cfg, ops);
      var w, admitted, last := Run(cfg, before), Admissions(cfg, before), LastTime(from, before);
      assert last <= TimeOf(op) by {
        if before != [] {
          assert last == TimeOf(ops[|ops| - 2]);
        }
      }
      match op {
        case Ask(now) => AskSettles(cfg, w, admitted, last, now);
        case Done(id, now, err) =>
          assert admitted + [] == admitted;
          if id < |w.tokens| && id !in w.reported {
            DoneSettles(cfg, w, admitted, last, id, now, err);
          } else {
            LaterSettled(cfg, w, admitted, last, now);
          }
      }
    }
  }

  lemma StartSettled(cfg: Config, from: Time)
    requires cfg.Ready()
    ensures Settled(cfg, Start(cfg), [], from)
  {
    assert ProbesInFlight(Start(cfg)) == {};
  }

  lemma LaterSettled(cfg: Config, w: World, admitted: seq<Time>, last: Time, now: Time)
    requires Settled(cfg, w, admitted, last) && last <= now
    ensures Settled(cfg, w, admitted, now)
  {}

  // ----- with slower calls -----

  lemma {:induction false} AdmittedWithin(cfg: Config, ops: seq<Op>, from: Time, to: Time)
    requires cfg.Ready() && Timely(ops, from, to)
    ensures forall i :: 0 <= i < |Admissions(cfg, ops)| ==> from <= Admissions(cfg, ops)[i] <= to
  {
    if ops != [] {
      AdmittedWithin(cfg, ops[..|ops| - 1], from, to);
    }
  }

  /** If all readings lie within a stretch shorter than the limit, all calls are prompt so far. */
  lemma {:induction false} ShortRunsArePrompt(cfg: Config, ops: seq<Op>, from: Time, to: Time, limit: int)
    requires cfg.Ready() && Timely(ops, from, to) && to - from < limit
    ensures Prompt(cfg, ops, limit)
  {
    if ops != [] {
      ShortRunsArePrompt(cfg, ops[..|ops| - 1], from, to, limit);
      AdmittedWithin(cfg, ops[..|ops| - 1], from, to);
    }
  }

  lemma {:induction false} TrippingTimely(cfg: Config, k: nat)
    requires cfg.Ready()
    ensures Timely(Tripping(cfg, 1, k), 0, 0)
  {
    if k > 0 {
      TrippingTimely(cfg, k - 1);
    }
  }

  lemma ProbingTimely(cfg: Config, p: nat)
    requires cfg.Ready()
    ensures Timely(Probing(cfg, 1, p), 0, cfg.openDuration)
  {
    TrippingTimely(cfg, cfg.minimumRequests);
  }

  lemma TimelyAppend(ops: seq<Op>, op: Op, from: Time, to: Time)
    requires Timely(ops, from, to) && from <= to <= TimeOf(op)
    ensures Timely(ops + [op], from, TimeOf(op))
  {}

  /** The probes of `Probing` were admitted when the open period ended. */
  lemma {:induction false} ProbesAdmittedAt(cfg: Config, p: nat)
    requires cfg.Ready() && p <= cfg.halfOpenMaxCalls
    ensures var times := Admissions(cfg, Probing(cfg, 1, p));
            && |times| == cfg.minimumRequests + 1 + p
            && forall i :: cfg.minimumRequests < i < |times| ==> times[i] == cfg.openDuration
  {
    if p == 0 {
      assert Probing(cfg, 1, 0) == Tripping(cfg, 1, cfg.minimumRequests);
      TrippingRun(cfg, 1, cfg.minimumRequests);
    } else {
      ProbesAdmittedAt(cfg, p - 1);
      ProbingRun(cfg, 1, p);
      var before, op := Probing(cfg, 1, p - 1), Ask(cfg.openDuration);
      assert Probing(cfg, 1, p) == before + [op];
      hide Probing, Run;
      AdmissionsAppend(cfg, before, op);
    }
  }

  lemma AdmissionsAppend(cfg: Config, ops: seq<Op>, op: Op)
    requires cfg.Ready()
    ensures Admissions(cfg, ops + [op])
         == Admissions(cfg, ops) + if op.Ask? && Allow(cfg, Run(cfg, ops).core, op.now).1 then [op.now] else []
  {
    assert (ops + [op])[..|ops|] == ops;
  }

  /** Probes fill every slot; the call left over from before the trip then fails and reopens the
      breaker, which forgets the probes. */
  function Forgetting(cfg: Config): seq<Op>
    requires cfg.Ready()
  {
    Probing(cfg, 1, cfg.halfOpenMaxCalls) + [Done(0, cfg.openDuration, FAULT)]
  }

  /** One open period later another probe is admitted on top of them. */
  function PilingUp(cfg: Config): seq<Op>
    requires cfg.Ready()
  {
    Forgetting(cfg) + [Ask(2 * cfg.openDuration)]
  }

  lemma ForgettingRun(cfg: Config)
    requires cfg.Ready()
    ensures var w := Run(cfg, Forgetting(cfg));
            && w.core.state == Open && w.core.openedAt == cfg.openDuration && w.episode == 1
            && ProbesOut(cfg, 1, w, cfg.halfOpenMaxCalls)
            && forall i :: i in w.reported <==> 0 <= i <= cfg.minimumRequests
  {
    var ops := Probing(cfg, 1, cfg.halfOpenMaxCalls);
    ProbingRun(cfg, 1, cfg.halfOpenMaxCalls);
    RunAppend(cfg, ops, Done(0, cfg.openDuration, FAULT));
    var w := Run(cfg, ops);
    assert CountsAsFailure(FAULT);
    ProbeFails(cfg, w.core, cfg.openDuration);
    hide Run, Probing, CountReport, WindowTotal, WindowFailures, Record;
    assert Step(cfg, w, Done(0, cfg.openDuration, FAULT)) == DoneStep(cfg, w, 0, cfg.openDuration, FAULT);
  }

  lemma ProbeFails(cfg: Config, c: Core, now: Time)
    requires Shaped(cfg, c) && c.state == HalfOpen
    ensures Record(cfg, c, now, true).state == Open && Record(cfg, c, now, true).openedAt == now
  {
    hide CountReport, WindowTotal, WindowFailures;
  }

  /** For every configuration there is a run with one probe too many in flight. */
  lemma PilingUpRun(cfg: Config)
    requires cfg.Ready()
    ensures var w := Run(cfg, PilingUp(cfg));
            w.core.state == HalfOpen && |ProbesInFlight(w)| == cfg.halfOpenMaxCalls + 1
  {
    var m, c := cfg.minimumRequests, cfg.halfOpenMaxCalls;
    ForgettingRun(cfg);
    RunAppend(cfg, Forgetting(cfg), Ask(2 * cfg.openDuration));
    var w, w' := Run(cfg, Forgetting(cfg)), Run(cfg, PilingUp(cfg));
    hide Run, WindowTotal, WindowFailures;
    assert w' == AskStep(cfg, w, 2 * cfg.openDuration);
    assert w'.tokens == w.tokens + [2];
    assert ProbesInFlight(w') == Interval(m + 1, c + 1);
  }

  lemma ForgettingPrompt(cfg: Config, limit: int)
    requires cfg.Ready() && limit > cfg.openDuration
    ensures Timely(Forgetting(cfg), 0, cfg.openDuration) && Prompt(cfg, Forgetting(cfg), limit)
  {
    ProbingTimely(cfg, cfg.halfOpenMaxCalls);
    TimelyAppend(Probing(cfg, 1, cfg.halfOpenMaxCalls), Done(0, cfg.openDuration, FAULT), 0, cfg.openDuration);
    ShortRunsArePrompt(cfg, Forgetting(cfg), 0, cfg.openDuration, limit);
  }

  lemma ForgettingAdmissions(cfg: Config)
    requires cfg.Ready()
    ensures Admissions(cfg, Forgetting(cfg)) == Admissions(cfg, Probing(cfg, 1, cfg.halfOpenMaxCalls))
  {
    AdmissionsAppend(cfg, Probing(cfg, 1, cfg.halfOpenMaxCalls), Done(0, cfg.openDuration, FAULT));
  }

  /** It needs no call that is out for longer than OpenDuration. */
  lemma PilingUpPrompt(cfg: Config, limit: int)
    requires cfg.Ready() && limit > cfg.openDuration
    ensures Timely(PilingUp(cfg), 0, 2 * cfg.openDuration) && Prompt(cfg, PilingUp(cfg), limit)
  {
    var before := Forgetting(cfg);
    var ops := PilingUp(cfg);
    assert ops[..|ops| - 1] == before;
    ForgettingPrompt(cfg, limit);
    ForgettingRun(cfg);
    ForgettingAdmissions(cfg);
    ProbesAdmittedAt(cfg, cfg.halfOpenMaxCalls);
    hide Run, Admissions, Forgetting, Probing;
    TimelyAppend(before, Ask(2 * cfg.openDuration), 0, cfg.openDuration);
  }

  /** On every run with an ordered clock whose calls report in less than `limit`, no more than
      HalfOpenMaxCalls probes are ever in flight. */
  ghost predicate ProbesCapped(cfg: Config, limit: int)
    requires cfg.Ready()
  {
    forall ops: seq<Op>, from: Time, to: Time :: Timely(ops, from, to) && Prompt(cfg, ops, limit) ==>
      |ProbesInFlight(Run(cfg, ops))| <= cfg.halfOpenMaxCalls
  }

  /** The documented cap on concurrent probes holds exactly when calls are limited to OpenDuration. */
  lemma PromptCapIff(cfg: Config, limit: int)
    requires cfg.Ready()
    ensures ProbesCapped(cfg, limit) <==> limit <= cfg.openDuration
  {
    if limit <= cfg.openDuration {
      forall ops: seq<Op>, from: Time, to: Time | Timely(ops, from, to) && Prompt(cfg, ops, limit)
        ensures |ProbesInFlight(Run(cfg, ops))| <= cfg.halfOpenMaxCalls
      {
        ShorterLimit(cfg, ops, limit, cfg.openDuration);
        PromptRunSettles(cfg, ops, from, to);
      }
    } else {
      PilingUpRun(cfg);
      PilingUpPrompt(cfg, limit);
    }
  }

  lemma {:induction false} ShorterLimit(cfg: Config, ops: seq<Op>, limit: int, longer: int)
    requires cfg.Ready() && Prompt(cfg, ops, limit) && limit <= longer
    ensures Prompt(cfg, ops, longer)
  {
    if ops != [] {
      ShorterLimit(cfg, ops[..|ops| - 1], limit, longer);
    }
  }

  // ----- whose successes close the breaker -----

  /** On every such run, an episode hears only its own probes: the successes that close the breaker
      are successes of probes, and no probe is lost to an older call's failure. */
  ghost predicate HearsOwnProbes(cfg: Config, limit: int)
    requires cfg.Ready()
  {
    forall ops: seq<Op>, from: Time, to: Time :: Timely(ops, from, to) && Prompt(cfg, ops, limit) ==>
      Run(cfg, ops).heard <= Own(Run(cfg, ops))
  }

  /** The first probe is out when a call from before the trip succeeds. */
  function LateSuccess(cfg: Config): seq<Op>
    requires cfg.Ready()
  {
    Probing(cfg, 1, 1) + [Done(0, cfg.openDuration, None)]
  }

  /** It counts as a success of the episode, and with HalfOpenSuccesses 1 it closes the breaker
      although the only probe has not been answered. */
  lemma LateSuccessCounts(cfg: Config)
    requires cfg.Ready()
    ensures var w := Run(cfg, LateSuccess(cfg));
            && 0 in w.heard && 0 !in Own(w)
            && Outstanding(w) == {cfg.minimumRequests + 1}
            && (w.core.state == Closed <==> cfg.halfOpenSuccesses == 1)
  {
    var ops := Probing(cfg, 1, 1);
    ProbingRun(cfg, 1, 1);
    RunAppend(cfg, ops, Done(0, cfg.openDuration, None));
    var w := Run(cfg, ops);
    hide Run, CountReport, WindowTotal, WindowFailures;
    assert Step(cfg, w, Done(0, cfg.openDuration, None)) == DoneStep(cfg, w, 0, cfg.openDuration, None);
  }

  lemma HearsOwnProbesIff(cfg: Config, limit: int)
    requires cfg.Ready()
    ensures HearsOwnProbes(cfg, limit) <==> limit <= cfg.openDuration
  {
    if limit <= cfg.openDuration {
      forall ops: seq<Op>, from: Time, to: Time | Timely(ops, from, to) && Prompt(cfg, ops, limit)
        ensures Run(cfg, ops).heard <= Own(Run(cfg, ops))
      {
        ShorterLimit(cfg, ops, limit, cfg.openDuration);
        PromptRunSettles(cfg, ops, from, to);
      }
    } else {
      LateSuccessCounts(cfg);
      ProbingTimely(cfg, 1);
      TimelyAppend(Probing(cfg, 1, 1), Done(0, cfg.openDuration, None), 0, cfg.openDuration);
      ShortRunsArePrompt(cfg, LateSuccess(cfg), 0, cfg.openDuration, limit);
    }
  }

  /** With prompt calls a report that closes the breaker completes HalfOpenSuccesses successes of the
      episode's own probes. */
  lemma ClosedByOwnProbes(cfg: Config, ops: seq<Op>, id: nat, now: Time, err: Option<Err>, from: Time, to: Time)
    requires cfg.Ready() && Run(cfg, ops).core.state == HalfOpen
    requires Timely(ops + [Done(id, now, err)], from, to) && Prompt(cfg, ops + [Done(id, now, err)], cfg.openDuration)
    ensures var w := Run(cfg, ops + [Done(id, now, err)]);
            w.core.state == Closed ==>
              && |w.heard| == cfg.halfOpenSuccesses
              && w.heard <= Own(w) * w.reported && w.heard !! w.faulty
  {
    RunConserves(cfg, ops);
    RunConserves(cfg, ops + [Done(id, now, err)]);
    RunHeardSucceeded(cfg, ops + [Done(id, now, err)]);
    RunAppend(cfg, ops, Done(id, now, err));
    PromptRunSettles(cfg, ops + [Done(id, now, err)], from, to);
    var w, w' := Run(cfg, ops), Run(cfg, ops + [Done(id, now, err)]);
    hide Run, Prompt, CountReport, WindowTotal, WindowFailures;
    if w'.core.state == Closed {
      assert w' == DoneStep(cfg, w, id, now, err) && w'.heard == w.heard + {id};
    }
  }
}
