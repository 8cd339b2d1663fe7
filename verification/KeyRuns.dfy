/** The breaker of one key, inside the traffic of all keys.  Whatever runs around it, what reaches
    it is a run of `BreakerRuns`, so everything proved there holds for every key of the stack; and
    the breaker caps what the calls on its key, retries included, can send during an outage. */
module KeyRuns {
  import opened Wrappers
  import opened GoTime
  import opened Classify
  import R = RetryTraces
  import B = BudgetRuns
  import BreakerCore
  import BreakerRuns
  import BreakerOutage
  import opened LoadBound

  predicate OnKey(s: State, i: nat, key: string) {
    i < |s.calls| && s.calls[i].key == key
  }

  /** Call i is on the key and has been sent but not answered. */
  predicate AwaitsReply(s: State, i: nat, key: string) {
    OnKey(s, i, key) && PhaseOf(s, i).Some? && PhaseOf(s, i).value.InFlight?
  }

  /** The step is a call on `key` asking its breaker, or reporting to it. */
  predicate AtBreaker(s: State, step: Step, key: string) {
    match step
    case AskBreaker(i, _) => OnKey(s, i, key) && PhaseOf(s, i).Some? && PhaseOf(s, i).value.Calling?
    case Reply(i, _, _, _) => AwaitsReply(s, i, key)
    case _ => false
  }

  /** What one key's breaker has been asked and told, and the token that each call on the key was
      last given. */
  datatype Link = Link(ops: seq<BreakerRuns.Op>, tokens: map<nat, nat>)

  function ProjectStep(st: Setup, s: State, key: string, l: Link, step: Step): Link
    requires st.Ready()
  {
    if !AtBreaker(s, step, key) then l
    else if step.AskBreaker? then
      var ok := BreakerCore.Allow(st.breaker, BreakerOf(st, s, key), step.now).1;
      Link(l.ops + [BreakerRuns.Ask(step.now)], if ok then l.tokens[step.call := KeySends(s.calls, key)] else l.tokens)
    else
      var id := if step.call in l.tokens then l.tokens[step.call] else 0;
      Link(l.ops + [BreakerRuns.Done(id, step.now, step.err)], l.tokens)
  }

  /** What reaches the breaker of `key` during some steps. */
  function Project(st: Setup, s: State, key: string, tokens: map<nat, nat>, steps: seq<Step>): Link
    requires st.Ready()
  {
    if steps == [] then Link([], tokens)
    else
      var before := steps[..|steps| - 1];
      ProjectStep(st, RunFrom(st, s, before), key, Project(st, s, key, tokens, before), steps[|steps| - 1])
  }

  /** The reports that the breaker of `key` received, in order. */
  function KeyReports(reports: seq<Reported>, key: string): seq<BreakerRuns.Report> {
    if reports == [] then []
    else
      var r := reports[|reports| - 1];
      KeyReports(reports[..|reports| - 1], key) + if r.key == key then [r.report] else []
  }

  // ----- the link -----

  /** Every unanswered call on the key holds an unused token of its own. */
  ghost predicate TokensOut(s: State, key: string, w: BreakerRuns.World, tokens: map<nat, nat>) {
    && (forall i :: AwaitsReply(s, i, key) ==>
          i in tokens && tokens[i] < |w.tokens| && tokens[i] !in w.reported)
    && (forall i, j :: AwaitsReply(s, i, key) && AwaitsReply(s, j, key) && i != j ==> tokens[i] != tokens[j])
  }

  /** The system seen through one key is the world of a single breaker. */
  ghost predicate Linked(st: Setup, s: State, key: string, w: BreakerRuns.World, tokens: map<nat, nat>)
    requires st.Ready()
  {
    && BreakerOf(st, s, key) == w.core
    && KeySends(s.calls, key) == |w.tokens|
    && KeyReports(s.reports, key) == w.reports
    && (forall k :: k in w.reported ==> k < |w.tokens|)
    && TokensOut(s, key, w, tokens)
  }

  /** A call starts to await a reply only by being sent. */
  lemma OnlySendsAwait(s: State, i: nat, ev: R.Event, key: string, j: nat)
    requires i < |s.calls| && AwaitsReply(AddEvent(s, i, ev), j, key)
    ensures if j == i then ev.Sent? else AwaitsReply(s, j, key)
  {
    var trace := s.calls[i].trace;
    assert (trace + [ev])[..|trace|] == trace;
  }

  /** The breaker's key, sends and reports as they are seen through the key. */
  ghost predicate SameView(st: Setup, s: State, s': State, key: string)
    requires st.Ready()
  {
    && BreakerOf(st, s', key) == BreakerOf(st, s, key)
    && KeySends(s'.calls, key) == KeySends(s.calls, key)
    && KeyReports(s'.reports, key) == KeyReports(s.reports, key)
    && forall j :: AwaitsReply(s', j, key) ==> AwaitsReply(s, j, key)
  }

  lemma ElsewhereEvent(s: State, i: nat, ev: R.Event, key: string)
    requires i < |s.calls| && (ev.Sent? ==> s.calls[i].key != key)
    ensures KeySends(AddEvent(s, i, ev).calls, key) == KeySends(s.calls, key)
    ensures forall j :: AwaitsReply(AddEvent(s, i, ev), j, key) ==> AwaitsReply(s, j, key)
  {
    SilentEvent(s, i, ev, key);
    forall j | AwaitsReply(AddEvent(s, i, ev), j, key)
      ensures AwaitsReply(s, j, key)
    {
      OnlySendsAwait(s, i, ev, key, j);
    }
  }

  lemma BeginView(st: Setup, s: State, key: string, step: Step)
    requires st.Ready() && step.Begin?
    ensures SameView(st, s, Next(st, s, step), key)
  {
    hide B.Next, KeySends, Setup.Ready;
    var s' := Next(st, s, step);
    if |s'.calls| > |s.calls| {
      NewCallSilent(s.calls, s'.calls[|s.calls|], key);
      assert PhaseOf(s', |s.calls|) == Some(R.Deriving(0, None));
      hide R.Follow;
      forall j: nat | j < |s.calls|
        ensures PhaseOf(s', j) == PhaseOf(s, j)
      {
        assert s'.calls[j] == s.calls[j];
      }
    }
  }

  lemma DecideView(st: Setup, s: State, key: string, step: Step)
    requires st.Ready() && step.Decide?
    ensures SameView(st, s, Next(st, s, step), key)
  {
    hide R.Follow, KeySends, B.Next;
    var s' := Next(st, s, step);
    if s'.calls != s.calls {
      var budget := B.Next(st.budget, s.budget, B.Decide(step.now));
      var ev := if |budget.grants| > |s.budget.grants| then R.Granted(step.now) else R.Denied(step.now);
      ElsewhereEvent(s, step.call, ev, key);
      SameCallsSamePhases(AddEvent(s, step.call, ev), s', key);
    } else {
      SameCallsSamePhases(s, s', key);
    }
  }

  lemma SameCallsSamePhases(s: State, s': State, key: string)
    requires s'.calls == s.calls
    ensures forall j :: AwaitsReply(s', j, key) == AwaitsReply(s, j, key)
  {}

  lemma LocalView(st: Setup, s: State, key: string, step: Step)
    requires st.Ready() && (step.Locally? || step.ReadTotal? || step.ReadUsed?)
    ensures SameView(st, s, Next(st, s, step), key)
  {
    hide R.Follow, R.Advance, KeySends, B.Next;
    var s' := Next(st, s, step);
    if step.Locally? && s' != s {
      ElsewhereEvent(s, step.call, step.ev, key);
    } else {
      SameCallsSamePhases(s, s', key);
    }
  }

  lemma OtherAskView(st: Setup, s: State, key: string, step: Step)
    requires st.Ready() && step.AskBreaker? && !AtBreaker(s, step, key)
    ensures SameView(st, s, Next(st, s, step), key)
  {
    hide R.Follow, KeySends, BreakerCore.Allow;
    var s' := Next(st, s, step);
    if s' != s {
      var i := step.call;
      var ok := BreakerCore.Allow(st.breaker, BreakerOf(st, s, s.calls[i].key), step.now).1;
      ElsewhereEvent(s, i, if ok then R.Sent else R.Rejected, key);
      SameCallsSamePhases(AddEvent(s, i, if ok then R.Sent else R.Rejected), s', key);
    }
  }

  lemma OtherReplyView(st: Setup, s: State, key: string, step: Step)
    requires st.Ready() && step.Reply? && !AtBreaker(s, step, key)
    ensures SameView(st, s, Next(st, s, step), key)
  {
    hide R.Follow, KeySends, BreakerCore.Record, KeyReports;
    var s' := Next(st, s, step);
    if s' != s {
      var ev := R.Returned(step.err, step.now, step.due);
      ElsewhereEvent(s, step.call, ev, key);
      SameCallsSamePhases(AddEvent(s, step.call, ev), s', key);
      KeyReportAppend(s.reports, s'.reports[|s.reports|], key);
    }
  }

  /** A step elsewhere is invisible through the key. */
  lemma ElsewhereStep(st: Setup, s: State, key: string, step: Step)
    requires st.Ready() && !AtBreaker(s, step, key)
    ensures SameView(st, s, Next(st, s, step), key)
  {
    match step {
      case Begin(_, _, _) => BeginView(st, s, key, step);
      case Decide(_, _) => DecideView(st, s, key, step);
      case AskBreaker(_, _) => OtherAskView(st, s, key, step);
      case Reply(_, _, _, _) => OtherReplyView(st, s, key, step);
      case _ => LocalView(st, s, key, step);
    }
  }

  lemma AskEvent(s: State, i: nat, ok: bool, key: string)
    requires OnKey(s, i, key)
    ensures var s' := AddEvent(s, i, if ok then R.Sent else R.Rejected);
            && KeySends(s'.calls, key) == KeySends(s.calls, key) + (if ok then 1 else 0)
            && forall j :: AwaitsReply(s', j, key) ==> (ok && j == i) || (j != i && AwaitsReply(s, j, key))
  {
    var c, ev := s.calls[i], if ok then R.Sent else R.Rejected;
    R.CountAppend(c.trace, ev);
    KeySendsUpdate(s.calls, i, c.(trace := c.trace + [ev]), key);
    forall j | AwaitsReply(AddEvent(s, i, ev), j, key)
      ensures (ok && j == i) || (j != i && AwaitsReply(s, j, key))
    {
      OnlySendsAwait(s, i, ev, key, j);
    }
  }

  lemma AskLinks(st: Setup, s: State, key: string, w: BreakerRuns.World, tokens: map<nat, nat>, i: nat, now: Time)
    requires st.Ready() && Inv(st, s) && Linked(st, s, key, w, tokens) && AtBreaker(s, AskBreaker(i, now), key)
    requires BreakerCore.Shaped(st.breaker, w.core)
    ensures var ok := BreakerCore.Allow(st.breaker, w.core, now).1;
            Linked(st, Next(st, s, AskBreaker(i, now)), key, BreakerRuns.AskStep(st.breaker, w, now),
                   if ok then tokens[i := |w.tokens|] else tokens)
  {
    hide R.Follow, KeySends, BreakerCore.Allow, Inv;
    var ok := BreakerCore.Allow(st.breaker, w.core, now).1;
    var t, s' := AddEvent(s, i, if ok then R.Sent else R.Rejected), Next(st, s, AskBreaker(i, now));
    AskEvent(s, i, ok, key);
    SameCallsSamePhases(t, s', key);
  }

  lemma ReplyLinks(st: Setup, s: State, key: string, w: BreakerRuns.World, tokens: map<nat, nat>, step: Step)
    requires st.Ready() && Linked(st, s, key, w, tokens) && step.Reply? && AtBreaker(s, step, key)
    requires BreakerCore.Shaped(st.breaker, w.core)
    ensures Linked(st, Next(st, s, step), key, BreakerRuns.DoneStep(st.breaker, w, tokens[step.call], step.now, step.err), tokens)
  {
    hide R.Follow, KeySends, BreakerCore.Record, KeyReports, AwaitsReply;
    ReplyStep(st, s, key, step);
    var report := BreakerRuns.Report(step.now, CountsAsFailure(step.err), w.core.state);
    KeyReportAppend(s.reports, Reported(step.call, key, report), key);
    hide Next;
  }

  /** What a reply on the key does to the system. */
  lemma ReplyStep(st: Setup, s: State, key: string, step: Step)
    requires st.Ready() && step.Reply? && AtBreaker(s, step, key) && BreakerCore.Shaped(st.breaker, BreakerOf(st, s, key))
    ensures var s', c := Next(st, s, step), BreakerOf(st, s, key);
            && BreakerOf(st, s', key) == BreakerCore.Record(st.breaker, c, step.now, CountsAsFailure(step.err))
            && s'.reports == s.reports
                 + [Reported(step.call, key, BreakerRuns.Report(step.now, CountsAsFailure(step.err), c.state))]
            && KeySends(s'.calls, key) == KeySends(s.calls, key)
            && forall j :: AwaitsReply(s', j, key) ==> j != step.call && AwaitsReply(s, j, key)
  {
    hide R.Follow, KeySends, BreakerCore.Record;
    var i := step.call;
    var ev, s' := R.Returned(step.err, step.now, step.due), Next(st, s, step);
    SilentEvent(s, i, ev, key);
    SameCallsSamePhases(AddEvent(s, i, ev), s', key);
    forall j | AwaitsReply(s', j, key)
      ensures j != i && AwaitsReply(s, j, key)
    {
      OnlySendsAwait(s, i, ev, key, j);
    }
  }

  lemma KeyReportAppend(reports: seq<Reported>, r: Reported, key: string)
    ensures KeyReports(reports + [r], key) == KeyReports(reports, key) + if r.key == key then [r.report] else []
  {
    assert (reports + [r])[..|reports|] == reports;
  }

  lemma ElsewhereLinks(st: Setup, s: State, key: string, w: BreakerRuns.World, tokens: map<nat, nat>, step: Step)
    requires st.Ready() && Linked(st, s, key, w, tokens) && !AtBreaker(s, step, key)
    ensures Linked(st, Next(st, s, step), key, w, tokens)
  {
    hide AwaitsReply, AtBreaker, Next, BreakerOf, KeySends, KeyReports;
    ElsewhereStep(st, s, key, step);
  }

  lemma LinkedFacts(st: Setup, s: State, key: string, w: BreakerRuns.World, tokens: map<nat, nat>)
    requires st.Ready() && Linked(st, s, key, w, tokens)
    ensures BreakerOf(st, s, key) == w.core && KeySends(s.calls, key) == |w.tokens|
    ensures forall i :: AwaitsReply(s, i, key) ==> i in tokens && tokens[i] < |w.tokens| && tokens[i] !in w.reported
  {}

  /** One step of the system is at most one step of the key's breaker. */
  lemma StepLinks(st: Setup, s: State, key: string, w0: BreakerRuns.World, l: Link, step: Step)
    requires st.Ready() && Inv(st, s) && BreakerCore.Shaped(st.breaker, w0.core)
    requires Linked(st, s, key, BreakerRuns.RunFrom(st.breaker, w0, l.ops), l.tokens)
    ensures var l' := ProjectStep(st, s, key, l, step);
            Linked(st, Next(st, s, step), key, BreakerRuns.RunFrom(st.breaker, w0, l'.ops), l'.tokens)
  {
    hide Inv, Next, Linked, BreakerOf, KeySends, BreakerCore.Allow;
    hide BreakerRuns.AskStep, BreakerRuns.DoneStep, BreakerRuns.RunFrom;
    var w := BreakerRuns.RunFrom(st.breaker, w0, l.ops);
    LinkedFacts(st, s, key, w, l.tokens);
    if !AtBreaker(s, step, key) {
      ElsewhereLinks(st, s, key, w, l.tokens, step);
    } else if step.AskBreaker? {
      BreakerRuns.RunFromAppend(st.breaker, w0, l.ops, BreakerRuns.Ask(step.now));
      AskLinks(st, s, key, w, l.tokens, step.call, step.now);
    } else {
      BreakerRuns.RunFromAppend(st.breaker, w0, l.ops, BreakerRuns.Done(l.tokens[step.call], step.now, step.err));
      ReplyLinks(st, s, key, w, l.tokens, step);
    }
  }

  lemma {:induction false} RunLinks(st: Setup, s: State, key: string, w: BreakerRuns.World, tokens: map<nat, nat>,
      steps: seq<Step>)
    requires st.Ready() && Inv(st, s) && BreakerCore.Shaped(st.breaker, w.core) && Linked(st, s, key, w, tokens)
    ensures var l := Project(st, s, key, tokens, steps);
            Linked(st, RunFrom(st, s, steps), key, BreakerRuns.RunFrom(st.breaker, w, l.ops), l.tokens)
  {
    hide Inv, Linked;
    if steps != [] {
      var before := steps[..|steps| - 1];
      RunLinks(st, s, key, w, tokens, before);
      RunKeepsInv(st, s, before);
      StepLinks(st, RunFrom(st, s, before), key, w, Project(st, s, key, tokens, before), steps[|steps| - 1]);
    }
  }

  /** What a key's breaker went through, in a run of the whole system. */
  function KeyOps(st: Setup, steps: seq<Step>, key: string): seq<BreakerRuns.Op>
    requires st.Ready()
  {
    Project(st, Start(), key, map[], steps).ops
  }

  lemma KeyLinked(st: Setup, steps: seq<Step>, key: string)
    requires st.Ready()
    ensures Linked(st, Run(st, steps), key, BreakerRuns.Run(st.breaker, KeyOps(st, steps, key)),
                   Project(st, Start(), key, map[], steps).tokens)
    ensures Inv(st, Run(st, steps))
  {
    var w := BreakerRuns.Start(st.breaker);
    assert Linked(st, Start(), key, w, map[]);
    RunLinks(st, Start(), key, w, map[], steps);
    RunKeepsInv(st, Start(), steps);
  }

  /** However the calls of all keys interleave, the breaker of each key is in the state of a single
      breaker that went through that key's requests and reports; it admitted exactly what was sent
      on the key, and it was given exactly the reports of the key. */
  lemma EachKeyRunsItsBreaker(st: Setup, steps: seq<Step>, key: string)
    requires st.Ready()
    ensures var s, w := Run(st, steps), BreakerRuns.Run(st.breaker, KeyOps(st, steps, key));
            && BreakerOf(st, s, key) == w.core
            && KeySends(s.calls, key) == |w.tokens|
            && KeyReports(s.reports, key) == w.reports
  {
    KeyLinked(st, steps, key);
  }

  /** At every moment of every call, finished or not, every attempt but the last was reported as a
      failure to the breaker of the call's own key, which counted it in the state it was in; so was
      the last, unless its result is the latest event or there is none.  No attempt is ever followed
      by anything before the breaker has learnt about it. */
  lemma RetriedWereReported(st: Setup, steps: seq<Step>, i: nat)
    requires st.Ready() && i < |Run(st, steps).calls|
    ensures var s := Run(st, steps);
            && (forall k :: 0 <= k < |s.reports| && s.reports[k].call == i ==> s.reports[k].key == s.calls[i].key)
            && KeyReports(s.reports, s.calls[i].key)
               == BreakerRuns.Run(st.breaker, KeyOps(st, steps, s.calls[i].key)).reports
            && VerdictsFor(s.reports, i) == VerdictsOf(s.calls[i].trace)
            && AllButLastFailed(s.calls[i].trace, VerdictsFor(s.reports, i))
  {
    RetriedFailed(st, steps, i);
    RunKeepsMatch(st, steps);
    EachKeyRunsItsBreaker(st, steps, Run(st, steps).calls[i].key);
    hide Run, VerdictsFor, VerdictsOf, AllButLastFailed, KeyReports, KeyOps, BreakerRuns.Run;
    forall k | 0 <= k < |Run(st, steps).reports| && Run(st, steps).reports[k].call == i
      ensures Run(st, steps).reports[k].key == Run(st, steps).calls[i].key
    {
      assert OwnKey(Run(st, steps), Run(st, steps).reports[k]);
    }
  }

  // ----- an outage -----

  /** The clock readings of the breaker of `key`, in the order in which it took them. */
  function Readings(st: Setup, s: State, steps: seq<Step>, key: string): seq<Time>
    requires st.Ready()
  {
    if steps == [] then []
    else
      var before, step := steps[..|steps| - 1], steps[|steps| - 1];
      Readings(st, s, before, key) + if AtBreaker(RunFrom(st, s, before), step, key) then [step.now] else []
  }

  ghost predicate InOrder(times: seq<Time>, from: Time, to: Time) {
    && (forall i :: 0 <= i < |times| ==> from <= times[i] <= to)
    && (forall i, j :: 0 <= i < j < |times| ==> times[i] <= times[j])
  }

  /** The breaker of `key` is closed at no point of the run from `s`. */
  ghost predicate StaysBroken(st: Setup, s: State, steps: seq<Step>, key: string)
    requires st.Ready()
  {
    && BreakerOf(st, RunFrom(st, s, steps), key).state != BreakerCore.Closed
    && (steps != [] ==> StaysBroken(st, s, steps[..|steps| - 1], key))
  }

  lemma {:induction false} ReadingsAreTimes(st: Setup, s: State, key: string, tokens: map<nat, nat>, steps: seq<Step>)
    requires st.Ready()
    ensures var ops, times := Project(st, s, key, tokens, steps).ops, Readings(st, s, steps, key);
            |ops| == |times| && forall i :: 0 <= i < |ops| ==> BreakerOutage.TimeOf(ops[i]) == times[i]
  {
    hide AtBreaker, BreakerOf, KeySends, BreakerCore.Allow;
    if steps != [] {
      ReadingsAreTimes(st, s, key, tokens, steps[..|steps| - 1]);
    }
  }

  lemma {:induction false} ProjectNeverCloses(st: Setup, s: State, key: string, w: BreakerRuns.World, tokens: map<nat, nat>,
      steps: seq<Step>)
    requires st.Ready() && Inv(st, s) && BreakerCore.Shaped(st.breaker, w.core) && Linked(st, s, key, w, tokens)
    requires StaysBroken(st, s, steps, key)
    ensures BreakerOutage.NeverCloses(st.breaker, w, Project(st, s, key, tokens, steps).ops)
  {
    hide Inv, AtBreaker, KeySends, BreakerCore.Allow, TokensOut;
    RunLinks(st, s, key, w, tokens, steps);
    if steps != [] {
      var before := steps[..|steps| - 1];
      var ops, ops' := Project(st, s, key, tokens, before).ops, Project(st, s, key, tokens, steps).ops;
      ProjectNeverCloses(st, s, key, w, tokens, before);
      assert ops' == ops || ops'[..|ops'| - 1] == ops;
    }
  }

  lemma TimelyOps(ops: seq<BreakerRuns.Op>, times: seq<Time>, from: Time, to: Time)
    requires |ops| == |times| && forall i :: 0 <= i < |ops| ==> BreakerOutage.TimeOf(ops[i]) == times[i]
    requires InOrder(times, from, to)
    ensures BreakerOutage.Timely(ops, from, to)
  {}

  lemma LinkedOutage(st: Setup, s: State, steps: seq<Step>, key: string, D: nat, w: BreakerRuns.World, tokens: map<nat, nat>)
    requires st.Ready() && Inv(st, s) && Linked(st, s, key, w, tokens) && BreakerCore.Shaped(st.breaker, w.core)
    requires BreakerOf(st, s, key).state == BreakerCore.Open && StaysBroken(st, s, steps, key)
    requires InOrder(Readings(st, s, steps, key), BreakerOf(st, s, key).openedAt, BreakerOf(st, s, key).openedAt + D)
    ensures KeySends(RunFrom(st, s, steps).calls, key) - KeySends(s.calls, key)
            <= (D / st.breaker.openDuration) * (st.breaker.halfOpenMaxCalls + st.breaker.halfOpenSuccesses - 1)
  {
    hide Inv, Linked, Project, Readings, InOrder, StaysBroken, RunFrom, KeySends, BreakerOf;
    hide BreakerRuns.RunFrom, BreakerOutage.NeverCloses, BreakerOutage.Timely;
    var ops := Project(st, s, key, tokens, steps).ops;
    RunLinks(st, s, key, w, tokens, steps);
    LinkedFacts(st, s, key, w, tokens);
    LinkedFacts(st, RunFrom(st, s, steps), key, BreakerRuns.RunFrom(st.breaker, w, ops),
      Project(st, s, key, tokens, steps).tokens);
    ReadingsAreTimes(st, s, key, tokens, steps);
    TimelyOps(ops, Readings(st, s, steps, key), w.core.openedAt, w.core.openedAt + D);
    ProjectNeverCloses(st, s, key, w, tokens, steps);
    BreakerOutage.OutageRate(st.breaker, w, ops, D);
  }

  /** The breaker is the cap on retry amplification: when the breaker of a key opened at T and has
      not closed since, the calls on that key, first attempts and retries together and however many
      there are, send at most
      floor(D / OpenDuration) * (HalfOpenMaxCalls + HalfOpenSuccesses - 1) requests in [T, T + D]. */
  lemma KeyOutage(st: Setup, past: seq<Step>, steps: seq<Step>, key: string, D: nat)
    requires st.Ready() && BreakerOf(st, Run(st, past), key).state == BreakerCore.Open
    requires StaysBroken(st, Run(st, past), steps, key)
    requires var T := BreakerOf(st, Run(st, past), key).openedAt;
             InOrder(Readings(st, Run(st, past), steps, key), T, T + D)
    ensures KeySends(RunFrom(st, Run(st, past), steps).calls, key) - KeySends(Run(st, past).calls, key)
            <= (D / st.breaker.openDuration) * (st.breaker.halfOpenMaxCalls + st.breaker.halfOpenSuccesses - 1)
  {
    KeyLinked(st, past, key);
    hide *;
    LinkedOutage(st, Run(st, past), steps, key, D, BreakerRuns.Run(st.breaker, KeyOps(st, past, key)),
      Project(st, Start(), key, map[], past).tokens);
  }
}
