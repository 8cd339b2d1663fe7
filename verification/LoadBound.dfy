/** Many logical calls at once, sharing one retry budget and a breaker per key: how much traffic
    can reach the dependencies, however the calls interleave. */
module LoadBound {
  import opened Wrappers
  import opened GoTime
  import opened EventLog
  import opened Classify
  import R = RetryTraces
  import B = BudgetRuns
  import opened Budgets
  import BreakerCore
  import BreakerRuns
  import WindowExactness

  /** A logical call: its breaker key, its rules, and everything that has happened to it. */
  datatype Call = Call(key: string, rules: R.Rules, trace: seq<R.Event>)

  /** A report handed to the breaker of a key, and the call that handed it over. */
  datatype Reported = Reported(call: nat, key: string, report: BreakerRuns.Report)

  datatype Setup = Setup(budget: Budgets.Config, breaker: BreakerCore.Config, retry: R.Config) {
    predicate Ready() {
      budget.Ready() && breaker.Ready() && retry.Validate()
    }
  }

  /** `asker` is the call inside the budget's Allow. */
  datatype State = State(
    budget: B.State,
    asker: Option<nat>,
    breakers: map<string, BreakerCore.Core>,
    calls: seq<Call>,
    reports: seq<Reported>)

  datatype Step =
    | Begin(key: string, retryable: bool, now: Time)
    | ReadTotal(call: nat, now: Time)
    | ReadUsed(call: nat, now: Time)
    | Decide(call: nat, now: Time)
    | Locally(call: nat, ev: R.Event)          // sleeping, deriving a deadline, starting an attempt
    | AskBreaker(call: nat, now: Time)
    | Reply(call: nat, now: Time, err: Option<Err>, due: Option<Time>)

  function Start(): State {
    State(B.START, None, map[], [], [])
  }

  function PhaseOf(s: State, i: nat): Option<R.Phase> {
    if i < |s.calls| then R.Follow(s.calls[i].rules, s.calls[i].trace) else None
  }

  function AddEvent(s: State, i: nat, ev: R.Event): State
    requires i < |s.calls|
  {
    s.(calls := s.calls[i := s.calls[i].(trace := s.calls[i].trace + [ev])])
  }

  /** The breaker for a key; one that does not exist yet is as good as new. */
  function BreakerOf(st: Setup, s: State, key: string): (c: BreakerCore.Core)
    requires st.Ready()
  {
    if key in s.breakers then s.breakers[key] else BreakerCore.Initial(st.breaker)
  }

  /** One atomic step; a step that is not enabled changes nothing. */
  function Next(st: Setup, s: State, step: Step): State
    requires st.Ready()
  {
    match step
    case Begin(key, retryable, now) =>
      if now < s.budget.clock then s
      else
        var t := if retryable then s.(budget := B.Next(st.budget, s.budget, B.Record(now))) else s;
        t.(calls := s.calls + [Call(key, R.Rules(st.retry, retryable, true), [])])
    case ReadTotal(i, now) =>
      if now < s.budget.clock || s.asker.Some? || PhaseOf(s, i) == None || !PhaseOf(s, i).value.Asking? then s
      else s.(asker := Some(i), budget := B.Next(st.budget, s.budget, B.ReadTotal(now)))
    case ReadUsed(i, now) =>
      if now < s.budget.clock || s.asker != Some(i) || !s.budget.phase.HasTotal? then s
      else s.(budget := B.Next(st.budget, s.budget, B.ReadUsed(now)))
    case Decide(i, now) =>
      if now < s.budget.clock || s.asker != Some(i) || !s.budget.phase.HasUsed? || i >= |s.calls| then s
      else
        var budget := B.Next(st.budget, s.budget, B.Decide(now));
        AddEvent(s.(asker := None, budget := budget), i,
                 if |budget.grants| > |s.budget.grants| then R.Granted(now) else R.Denied(now))
    case Locally(i, ev) =>
      if PhaseOf(s, i) == None || R.Advance(s.calls[i].rules, PhaseOf(s, i).value, ev) == None
         || !(ev.Slept? || ev.Interrupted? || ev.NoTime? || ev.Attempt?) then s
      else AddEvent(s, i, ev)
    case AskBreaker(i, now) =>
      if PhaseOf(s, i) == None || !PhaseOf(s, i).value.Calling? then s
      else
        var key := s.calls[i].key;
        var (c, ok) := BreakerCore.Allow(st.breaker, BreakerOf(st, s, key), now);
        AddEvent(s.(breakers := s.breakers[key := c]), i, if ok then R.Sent else R.Rejected)
    case Reply(i, now, err, due) =>
      if PhaseOf(s, i) == None || !PhaseOf(s, i).value.InFlight? then s
      else
        var key := s.calls[i].key;
        var c := BreakerOf(st, s, key);
        if !BreakerCore.Shaped(st.breaker, c) then s
        else
          var c' := BreakerCore.Record(st.breaker, c, now, CountsAsFailure(err));
          var report := BreakerRuns.Report(now, CountsAsFailure(err), c.state);
          AddEvent(s.(breakers := s.breakers[key := c'], reports := s.reports + [Reported(i, key, report)]),
                   i, R.Returned(err, now, due))
  }

  function RunFrom(st: Setup, s: State, steps: seq<Step>): State
    requires st.Ready()
  {
    if steps == [] then s else Next(st, RunFrom(st, s, steps[..|steps| - 1]), steps[|steps| - 1])
  }

  function Run(st: Setup, steps: seq<Step>): State
    requires st.Ready()
  {
    RunFrom(st, Start(), steps)
  }

  // ----- totals over the calls -----

  function TotalSends(calls: seq<Call>): nat {
    if calls == [] then 0 else TotalSends(calls[..|calls| - 1]) + R.Sends(calls[|calls| - 1].trace)
  }

  function TotalGrants(calls: seq<Call>): nat {
    if calls == [] then 0 else TotalGrants(calls[..|calls| - 1]) + R.Grants(calls[|calls| - 1].trace)
  }

  lemma {:induction false} TotalsUpdate(calls: seq<Call>, i: nat, c: Call)
    requires i < |calls|
    ensures TotalSends(calls[i := c]) == TotalSends(calls) + R.Sends(c.trace) - R.Sends(calls[i].trace)
    ensures TotalGrants(calls[i := c]) == TotalGrants(calls) + R.Grants(c.trace) - R.Grants(calls[i].trace)
  {
    var n := |calls| - 1;
    if i == n {
      assert calls[i := c][..n] == calls[..n];
    } else {
      TotalsUpdate(calls[..n], i, c);
      assert calls[i := c][..n] == calls[..n][i := c];
    }
  }

  // ----- the invariant -----

  ghost predicate CallOK(c: Call) {
    c.rules.budgeted && R.Follow(c.rules, c.trace).Some?
  }

  ghost predicate CallsOK(calls: seq<Call>) {
    forall i :: 0 <= i < |calls| ==> CallOK(calls[i])
  }

  ghost predicate Inv(st: Setup, s: State)
    requires st.Ready()
  {
    && B.Inv(st.budget, s.budget)
    && CallsOK(s.calls)
    && (s.asker.Some? <==> !s.budget.phase.Idle?)
    && (s.asker.Some? ==> PhaseOf(s, s.asker.value).Some? && PhaseOf(s, s.asker.value).value.Asking?)
    && |s.budget.requests| <= |s.calls|
    && TotalGrants(s.calls) == |s.budget.grants|
    && (forall k :: k in s.breakers ==> BreakerCore.Shaped(st.breaker, s.breakers[k]))
  }

  /** A possible event leaves the calls in order, and its totals show it. */
  lemma AddEventKeeps(s: State, i: nat, ev: R.Event)
    requires i < |s.calls| && CallsOK(s.calls)
    requires R.Advance(s.calls[i].rules, PhaseOf(s, i).value, ev).Some?
    ensures var s' := AddEvent(s, i, ev);
            && CallsOK(s'.calls)
            && PhaseOf(s', i) == R.Advance(s.calls[i].rules, PhaseOf(s, i).value, ev)
            && TotalGrants(s'.calls) == TotalGrants(s.calls) + (if ev.Granted? then 1 else 0)
            && TotalSends(s'.calls) == TotalSends(s.calls) + (if ev.Sent? then 1 else 0)
  {
    var c := s.calls[i];
    R.FollowAppend(c.rules, c.trace, ev);
    R.CountAppend(c.trace, ev);
    TotalsUpdate(s.calls, i, c.(trace := c.trace + [ev]));
    hide R.Follow, R.Advance;
  }

  lemma BeginKeepsInv(st: Setup, s: State, key: string, retryable: bool, now: Time)
    requires st.Ready() && Inv(st, s)
    ensures Inv(st, Next(st, s, Begin(key, retryable, now)))
  {
    hide B.Inv;
    var s' := Next(st, s, Begin(key, retryable, now));
    B.NextKeepsInv(st.budget, s.budget, B.Record(now));
    if |s'.calls| > |s.calls| {
      assert s'.calls[..|s'.calls| - 1] == s.calls;
    }
  }

  lemma BudgetStepKeepsInv(st: Setup, s: State, step: Step)
    requires st.Ready() && Inv(st, s) && (step.ReadTotal? || step.ReadUsed?)
    ensures Inv(st, Next(st, s, step))
  {
    B.NextKeepsInv(st.budget, s.budget, B.ReadTotal(step.now));
    B.NextKeepsInv(st.budget, s.budget, B.ReadUsed(step.now));
  }

  lemma DecisionMade(cfg: Budgets.Config, b: B.State, now: Time)
    requires cfg.Ready() && b.phase.HasUsed? && b.clock <= now
    ensures var b' := B.Next(cfg, b, B.Decide(now));
            b'.phase.Idle? && |b'.requests| == |b.requests| && |b'.grants| - |b.grants| in {0, 1}
  {}

  lemma DecideKeepsInv(st: Setup, s: State, i: nat, now: Time)
    requires st.Ready() && Inv(st, s)
    ensures Inv(st, Next(st, s, Decide(i, now)))
  {
    hide B.Inv, B.Next, R.Follow, CallsOK;
    if s.budget.clock <= now && s.asker == Some(i) && s.budget.phase.HasUsed? && i < |s.calls| {
      B.NextKeepsInv(st.budget, s.budget, B.Decide(now));
      DecisionMade(st.budget, s.budget, now);
      var budget := B.Next(st.budget, s.budget, B.Decide(now));
      AddEventKeeps(s, i, if |budget.grants| > |s.budget.grants| then R.Granted(now) else R.Denied(now));
    }
  }

  /** An event that is no grant, on a call outside Allow, leaves the accounts in order. */
  lemma EventKeepsInv(st: Setup, s: State, s': State, i: nat, ev: R.Event)
    requires st.Ready() && Inv(st, s) && i < |s.calls|
    requires R.Advance(s.calls[i].rules, PhaseOf(s, i).value, ev).Some? && !PhaseOf(s, i).value.Asking? && !ev.Granted?
    requires s'.calls == AddEvent(s, i, ev).calls && s'.budget == s.budget && s'.asker == s.asker
    requires forall k :: k in s'.breakers ==> BreakerCore.Shaped(st.breaker, s'.breakers[k])
    ensures Inv(st, s')
  {
    hide B.Inv, R.Advance, R.Follow, CallsOK;
    AddEventKeeps(s, i, ev);
    forall j: nat | j != i
      ensures PhaseOf(s', j) == PhaseOf(s, j)
    {
      assert j < |s.calls| ==> AddEvent(s, i, ev).calls[j] == s.calls[j];
    }
  }

  lemma LocallyKeepsInv(st: Setup, s: State, i: nat, ev: R.Event)
    requires st.Ready() && Inv(st, s)
    ensures Inv(st, Next(st, s, Locally(i, ev)))
  {
    var s' := Next(st, s, Locally(i, ev));
    if s' != s {
      EventKeepsInv(st, s, s', i, ev);
    }
  }

  lemma AskBreakerKeepsInv(st: Setup, s: State, i: nat, now: Time)
    requires st.Ready() && Inv(st, s)
    ensures Inv(st, Next(st, s, AskBreaker(i, now)))
  {
    if PhaseOf(s, i).Some? && PhaseOf(s, i).value.Calling? {
      var ok := BreakerCore.Allow(st.breaker, BreakerOf(st, s, s.calls[i].key), now).1;
      EventKeepsInv(st, s, Next(st, s, AskBreaker(i, now)), i, if ok then R.Sent else R.Rejected);
    }
  }

  lemma ReplyKeepsInv(st: Setup, s: State, i: nat, now: Time, err: Option<Err>, due: Option<Time>)
    requires st.Ready() && Inv(st, s)
    ensures Inv(st, Next(st, s, Reply(i, now, err, due)))
  {
    hide B.Inv, BreakerCore.Record, R.Follow;
    if PhaseOf(s, i).Some? && PhaseOf(s, i).value.InFlight? {
      BreakerCore.RecordShaped(st.breaker, BreakerOf(st, s, s.calls[i].key), now, CountsAsFailure(err));
      EventKeepsInv(st, s, Next(st, s, Reply(i, now, err, due)), i, R.Returned(err, now, due));
    }
  }

  lemma NextKeepsInv(st: Setup, s: State, step: Step)
    requires st.Ready() && Inv(st, s)
    ensures Inv(st, Next(st, s, step))
  {
    match step {
      case Begin(key, retryable, now) => BeginKeepsInv(st, s, key, retryable, now);
      case ReadTotal(_, _) => BudgetStepKeepsInv(st, s, step);
      case ReadUsed(_, _) => BudgetStepKeepsInv(st, s, step);
      case Decide(i, now) => DecideKeepsInv(st, s, i, now);
      case Locally(i, ev) => LocallyKeepsInv(st, s, i, ev);
      case AskBreaker(i, now) => AskBreakerKeepsInv(st, s, i, now);
      case Reply(i, now, err, due) => ReplyKeepsInv(st, s, i, now, err, due);
    }
  }

  lemma {:induction false} RunKeepsInv(st: Setup, s: State, steps: seq<Step>)
    requires st.Ready() && Inv(st, s)
    ensures Inv(st, RunFrom(st, s, steps))
  {
    if steps != [] {
      RunKeepsInv(st, s, steps[..|steps| - 1]);
      NextKeepsInv(st, RunFrom(st, s, steps[..|steps| - 1]), steps[|steps| - 1]);
    }
  }

  // ----- the load bound -----

  /** Every send is the first of its call or paid for by a grant. */
  lemma {:induction false} SendsPaid(calls: seq<Call>)
    requires CallsOK(calls)
    ensures TotalSends(calls) <= |calls| + TotalGrants(calls)
  {
    if calls != [] {
      var c := calls[|calls| - 1];
      SendsPaid(calls[..|calls| - 1]);
      R.TraceBalances(c.rules, c.trace);
    }
  }

  lemma {:induction false} WeightAtMostCount(log: seq<Event>, p: Event -> bool)
    requires B.Units(log)
    ensures Weight(log, p) <= |log| as real
  {
    if log != [] {
      WeightAtMostCount(Init(log), p);
    }
  }

  lemma {:induction false} WeightOfAll(log: seq<Event>, p: Event -> bool)
    requires B.Units(log) && forall e :: e in log ==> p(e)
    ensures Weight(log, p) == |log| as real
  {
    if log != [] {
      WeightOfAll(Init(log), p);
    }
  }

  /** If all grants of a run fall within (Buckets-1) bucket widths, N logical calls put fewer than
      N + Ratio * N + floor + 1 requests on the wire, for every interleaving and every outcome; the
      floor is MinPerSecond for every second of the window. */
  lemma EndToEndLoad(st: Setup, steps: seq<Step>, from: Time, to: Time)
    requires st.Ready() && st.budget.Shape().Regular()
    requires to - from <= (st.budget.Shape().n - 1) * st.budget.Shape().Width()
    requires forall k :: 0 <= k < |Run(st, steps).budget.grants| ==> from <= Run(st, steps).budget.grants[k].at <= to
    ensures var n := |Run(st, steps).calls|;
            TotalSends(Run(st, steps).calls) as real
            < n as real + n as real * st.budget.ratio
              + st.budget.minPerSecond * (st.budget.window as real / 1_000_000_000.0) + 1.0
  {
    hide *;
    Reached(st, steps);
    LoadPromised(st, Run(st, steps), from, to);
  }

  lemma LoadPromised(st: Setup, s: State, from: Time, to: Time)
    requires st.Ready() && st.budget.Shape().Regular() && Inv(st, s)
    requires to - from <= (st.budget.Shape().n - 1) * st.budget.Shape().Width()
    requires forall k :: 0 <= k < |s.budget.grants| ==> from <= s.budget.grants[k].at <= to
    ensures var n := |s.calls|;
            TotalSends(s.calls) as real
            < n as real + n as real * st.budget.ratio
              + st.budget.minPerSecond * (st.budget.window as real / 1_000_000_000.0) + 1.0
  {
    hide *;
    LoadAllowed(st, s, from, to);
    AllowanceSpelled(st, |s.calls| as real, TotalSends(s.calls) as real);
  }

  lemma AllowanceSpelled(st: Setup, n: real, sends: real)
    requires st.Ready()
    requires st.budget.Validate() ==> sends < n + st.budget.Allowance(n) + 1.0
    ensures sends < n + n * st.budget.ratio + st.budget.minPerSecond * (st.budget.window as real / 1_000_000_000.0) + 1.0
  {
    AllowanceIs(st.budget, n);
  }

  lemma Reached(st: Setup, steps: seq<Step>)
    requires st.Ready()
    ensures Inv(st, Run(st, steps))
  {
    RunKeepsInv(st, Start(), steps);
  }

  lemma LoadAllowed(st: Setup, s: State, from: Time, to: Time)
    requires st.Ready() && st.budget.Shape().Regular() && Inv(st, s)
    requires to - from <= (st.budget.Shape().n - 1) * st.budget.Shape().Width()
    requires forall k :: 0 <= k < |s.budget.grants| ==> from <= s.budget.grants[k].at <= to
    ensures TotalSends(s.calls) as real < |s.calls| as real + st.budget.Allowance(|s.calls| as real) + 1.0
  {
    SendsPaid(s.calls);
    GrantsBounded(st.budget, s.budget, |s.calls|, from, to);
  }

  lemma GrantsBounded(cfg: Budgets.Config, b: B.State, n: nat, from: Time, to: Time)
    requires cfg.Ready() && cfg.Shape().Regular() && B.Inv(cfg, b) && |b.requests| <= n
    requires to - from <= (cfg.Shape().n - 1) * cfg.Shape().Width()
    requires forall k :: 0 <= k < |b.grants| ==> from <= b.grants[k].at <= to
    ensures |b.grants| as real < 1.0 + cfg.Allowance(n as real)
  {
    if b.grants == [] {
      AllowanceOfCount(cfg, 0.0, n);
    } else {
      var k := |b.grants| - 1;
      B.LastGrantBound(cfg, b, k, from, to);
      forall e | e in b.retries
        ensures B.Within(from, to)(e)
      {
        var j :| 0 <= j < |b.retries| && b.retries[j] == e;
        assert B.GrantOK(cfg, b, j);
      }
      WeightOfAll(b.retries, B.Within(from, to));
      var seen := b.requests[..b.grants[k].seen];
      WeightAtMostCount(seen, WindowExactness.AgeBelow(b.grants[k].totalAt, cfg.window));
      AllowanceOfCount(cfg, B.RequestsBehind(cfg, b, k), n);
    }
  }

  lemma AllowanceOfCount(cfg: Budgets.Config, requests: real, n: nat)
    requires cfg.Validate() && requests <= n as real
    ensures cfg.Allowance(requests) <= cfg.Allowance(n as real)
    ensures cfg.Allowance(n as real) >= 0.0
  {
    hide Budgets.Config.Floor, Share;
    B.AllowanceMonotone(cfg, requests, n as real);
    B.AllowanceMonotone(cfg, 0.0, n as real);
    NoShare(cfg.ratio);
  }

  lemma NoShare(ratio: real)
    ensures Share(0.0, ratio) == 0.0
  {}

  // ----- retried attempts were reported as failures -----

  /** The verdicts that call i's breaker was given, in order. */
  function VerdictsFor(reports: seq<Reported>, i: nat): seq<bool> {
    if reports == [] then []
    else
      var r := reports[|reports| - 1];
      VerdictsFor(reports[..|reports| - 1], i) + if r.call == i then [r.report.failed] else []
  }

  /** The verdicts that the call's own results deserve. */
  function VerdictsOf(trace: seq<R.Event>): seq<bool> {
    if trace == [] then []
    else
      var ev := trace[|trace| - 1];
      VerdictsOf(trace[..|trace| - 1]) + if ev.Returned? then [CountsAsFailure(ev.result)] else []
  }

  lemma VerdictAppend(trace: seq<R.Event>, ev: R.Event)
    ensures VerdictsOf(trace + [ev]) == VerdictsOf(trace) + if ev.Returned? then [CountsAsFailure(ev.result)] else []
  {
    assert (trace + [ev])[..|trace|] == trace;
  }

  /** The report went to the breaker of the key that its call is on. */
  predicate OwnKey(s: State, r: Reported) {
    r.call < |s.calls| && s.calls[r.call].key == r.key
  }

  ghost predicate ReportsMatch(s: State) {
    && (forall i :: 0 <= i < |s.calls| ==> VerdictsFor(s.reports, i) == VerdictsOf(s.calls[i].trace))
    && (forall k :: 0 <= k < |s.reports| ==> OwnKey(s, s.reports[k]))
  }

  lemma {:induction false} NoVerdicts(reports: seq<Reported>, i: nat)
    requires forall k :: 0 <= k < |reports| ==> reports[k].call < i
    ensures VerdictsFor(reports, i) == []
  {
    if reports != [] {
      NoVerdicts(reports[..|reports| - 1], i);
    }
  }

  lemma ReportAppend(reports: seq<Reported>, r: Reported, i: nat)
    ensures VerdictsFor(reports + [r], i) == VerdictsFor(reports, i) + if r.call == i then [r.report.failed] else []
  {
    assert (reports + [r])[..|reports|] == reports;
  }

  /** What an event on call i adds to the reports: its own report if it is a result. */
  ghost predicate ReportOf(s: State, i: nat, ev: R.Event, added: seq<Reported>) {
    if ev.Returned? then
      && |added| == 1
      && added[0].call == i && OwnKey(s, added[0])
      && added[0].report.failed == CountsAsFailure(ev.result)
    else added == []
  }

  lemma EventKeepsMatch(s: State, s': State, i: nat, ev: R.Event, added: seq<Reported>)
    requires ReportsMatch(s) && i < |s.calls| && ReportOf(s, i, ev, added)
    requires s'.calls == AddEvent(s, i, ev).calls && s'.reports == s.reports + added
    ensures ReportsMatch(s')
  {
    forall j: nat | j < |s'.calls|
      ensures VerdictsFor(s'.reports, j) == VerdictsOf(s'.calls[j].trace)
    {
      EventMatches(s, s', i, ev, added, j);
    }
    hide VerdictsFor, VerdictsOf;
    EventKeepsKeys(s, s', i, ev, added);
  }

  lemma EventKeepsKeys(s: State, s': State, i: nat, ev: R.Event, added: seq<Reported>)
    requires i < |s.calls| && ReportOf(s, i, ev, added)
    requires forall k :: 0 <= k < |s.reports| ==> OwnKey(s, s.reports[k])
    requires s'.calls == AddEvent(s, i, ev).calls && s'.reports == s.reports + added
    ensures forall k :: 0 <= k < |s'.reports| ==> OwnKey(s', s'.reports[k])
  {
    forall k | 0 <= k < |s'.reports|
      ensures OwnKey(s', s'.reports[k])
    {
      assert s'.reports[k] == if k < |s.reports| then s.reports[k] else added[0];
      KeyKept(s, s', i, ev, s'.reports[k]);
    }
  }

  lemma KeyKept(s: State, s': State, i: nat, ev: R.Event, r: Reported)
    requires i < |s.calls| && OwnKey(s, r) && s'.calls == AddEvent(s, i, ev).calls
    ensures OwnKey(s', r)
  {
    assert s'.calls[r.call].key == s.calls[r.call].key;
  }

  lemma EventMatches(s: State, s': State, i: nat, ev: R.Event, added: seq<Reported>, j: nat)
    requires i < |s.calls| && j < |s.calls| && VerdictsFor(s.reports, j) == VerdictsOf(s.calls[j].trace)
    requires ReportOf(s, i, ev, added)
    requires s'.calls == AddEvent(s, i, ev).calls && s'.reports == s.reports + added
    ensures VerdictsFor(s'.reports, j) == VerdictsOf(s'.calls[j].trace)
  {
    hide VerdictsFor, VerdictsOf;
    VerdictAppend(s.calls[i].trace, ev);
    if ev.Returned? {
      assert added == [added[0]];
      ReportAppend(s.reports, added[0], j);
    } else {
      assert s'.reports == s.reports;
    }
  }

  lemma NextKeepsMatch(st: Setup, s: State, step: Step)
    requires st.Ready() && ReportsMatch(s)
    ensures ReportsMatch(Next(st, s, step))
  {
    hide R.Follow, R.Advance, BreakerCore.Record, BreakerCore.Allow, B.Next, VerdictsFor;
    var s' := Next(st, s, step);
    match step {
      case Begin(_, _, _) => NoVerdicts(s.reports, |s.calls|);
      case ReadTotal(_, _) =>
      case ReadUsed(_, _) =>
      case Decide(i, now) =>
        if s'.calls != s.calls {
          DecideEvent(st, s, i, now);
        }
      case Locally(i, ev) =>
        if s' != s {
          EventKeepsMatch(s, s', i, ev, []);
        }
      case AskBreaker(i, now) =>
        if s' != s {
          var ok := BreakerCore.Allow(st.breaker, BreakerOf(st, s, s.calls[i].key), now).1;
          EventKeepsMatch(s, s', i, if ok then R.Sent else R.Rejected, []);
        }
      case Reply(i, now, err, due) =>
        if s' != s {
          ReplyReported(st, s, i, now, err, due);
        }
    }
  }

  lemma ReplyReported(st: Setup, s: State, i: nat, now: Time, err: Option<Err>, due: Option<Time>)
    requires st.Ready() && ReportsMatch(s) && Next(st, s, Reply(i, now, err, due)) != s
    ensures ReportsMatch(Next(st, s, Reply(i, now, err, due)))
  {
    hide R.Follow, R.Advance, BreakerCore.Record, ReportsMatch;
    var s' := Next(st, s, Reply(i, now, err, due));
    var during := BreakerOf(st, s, s.calls[i].key).state;
    EventKeepsMatch(s, s', i, R.Returned(err, now, due),
      [Reported(i, s.calls[i].key, BreakerRuns.Report(now, CountsAsFailure(err), during))]);
  }

  lemma DecideEvent(st: Setup, s: State, i: nat, now: Time)
    requires st.Ready() && ReportsMatch(s) && Next(st, s, Decide(i, now)).calls != s.calls
    ensures ReportsMatch(Next(st, s, Decide(i, now)))
  {
    var budget := B.Next(st.budget, s.budget, B.Decide(now));
    EventKeepsMatch(s, Next(st, s, Decide(i, now)), i,
      if |budget.grants| > |s.budget.grants| then R.Granted(now) else R.Denied(now), []);
  }

  lemma {:induction false} RunKeepsMatch(st: Setup, steps: seq<Step>)
    requires st.Ready()
    ensures ReportsMatch(Run(st, steps))
  {
    if steps != [] {
      RunKeepsMatch(st, steps[..|steps| - 1]);
      NextKeepsMatch(st, Run(st, steps[..|steps| - 1]), steps[|steps| - 1]);
    }
  }

  lemma {:induction false} AllFailures(trace: seq<R.Event>)
    requires forall i :: 0 <= i < |trace| && trace[i].Returned? ==> CountsAsFailure(trace[i].result)
    ensures forall j :: 0 <= j < |VerdictsOf(trace)| ==> VerdictsOf(trace)[j]
  {
    if trace != [] {
      AllFailures(trace[..|trace| - 1]);
    }
  }

  /** Every attempt has a verdict, is still out, or was rejected. */
  lemma {:induction false} AttemptsAccounted(rules: R.Rules, trace: seq<R.Event>)
    requires R.Follow(rules, trace).Some?
    ensures var p := R.Follow(rules, trace).value;
            |R.AttemptNumbers(trace)| == |VerdictsOf(trace)| + R.Rejections(trace) + if p.Calling? || p.InFlight? then 1 else 0
  {
    if trace != [] {
      var before, ev := trace[..|trace| - 1], trace[|trace| - 1];
      hide R.Rejections, R.AttemptNumbers, VerdictsOf, R.Advance;
      AttemptsAccounted(rules, before);
      assert trace == before + [ev];
      R.CountAppend(before, ev);
      VerdictAppend(before, ev);
      R.PhaseShows(rules, R.Follow(rules, before).value, ev);
    }
  }

  /** The last event is a result: only then can there be a verdict after which nothing followed. */
  predicate EndsInResult(trace: seq<R.Event>) {
    trace != [] && trace[|trace| - 1].Returned?
  }

  /** All verdicts are failures, except perhaps one that nothing has followed; and the failures cover
      all attempts but the last. */
  ghost predicate AllButLastFailed(trace: seq<R.Event>, v: seq<bool>) {
    && (forall j :: 0 <= j < |v| - (if EndsInResult(trace) then 1 else 0) ==> v[j])
    && (forall j :: 0 <= j < |R.AttemptNumbers(trace)| - 1 ==> j < |v| && v[j])
  }

  /** Whatever was followed by anything was a failure; and that covers all attempts but the last. */
  lemma VerdictsFailed(rules: R.Rules, trace: seq<R.Event>)
    requires R.Follow(rules, trace).Some?
    ensures var v := VerdictsOf(trace);
            && (forall j :: 0 <= j < |v| - (if EndsInResult(trace) then 1 else 0) ==> v[j])
            && |R.AttemptNumbers(trace)| - 1 <= |v| - (if EndsInResult(trace) then 1 else 0)
  {
    if trace != [] {
      var before, ev := trace[..|trace| - 1], trace[|trace| - 1];
      R.TraceBalances(rules, trace);
      forall j | 0 <= j < |before| && before[j].Returned?
        ensures CountsAsFailure(before[j].result)
      {
        assert before[j] == trace[j];
        RetryableIffTransientFailure(before[j].result);
      }
      AllFailures(before);
      AttemptsAccounted(rules, trace);
      R.NoRejections(before);
      assert trace == before + [ev];
      R.CountAppend(before, ev);
      if !R.Follow(rules, trace).value.Finished? {
        R.NoRejections(trace);
      }
    }
  }

  /** The results reported for a call are its results in order, and were failures as said. */
  lemma RetriedFailed(st: Setup, steps: seq<Step>, i: nat)
    requires st.Ready() && i < |Run(st, steps).calls|
    ensures var s := Run(st, steps);
            && VerdictsFor(s.reports, i) == VerdictsOf(s.calls[i].trace)
            && AllButLastFailed(s.calls[i].trace, VerdictsFor(s.reports, i))
  {
    RunKeepsInv(st, Start(), steps);
    RunKeepsMatch(st, steps);
    var c := Run(st, steps).calls[i];
    assert CallOK(c);
    VerdictsFailed(c.rules, c.trace);
  }

  // ----- an open breaker silences its key -----

  function KeySends(calls: seq<Call>, key: string): nat {
    if calls == [] then 0
    else
      var c := calls[|calls| - 1];
      KeySends(calls[..|calls| - 1], key) + if c.key == key then R.Sends(c.trace) else 0
  }

  lemma {:induction false} KeySendsUpdate(calls: seq<Call>, i: nat, c: Call, key: string)
    requires i < |calls| && c.key == calls[i].key
    ensures KeySends(calls[i := c], key) ==
            KeySends(calls, key) + if c.key == key then R.Sends(c.trace) - R.Sends(calls[i].trace) else 0
  {
    var n := |calls| - 1;
    if i == n {
      assert calls[i := c][..n] == calls[..n];
    } else {
      KeySendsUpdate(calls[..n], i, c, key);
      assert calls[i := c][..n] == calls[..n][i := c];
    }
  }

  /** The readings of the breaker clock in a step. */
  predicate Before(step: Step, t: Time) {
    (step.AskBreaker? || step.Reply?) ==> step.now < t
  }

  lemma SilentEvent(s: State, i: nat, ev: R.Event, key: string)
    requires i < |s.calls| && (ev.Sent? ==> s.calls[i].key != key)
    ensures KeySends(AddEvent(s, i, ev).calls, key) == KeySends(s.calls, key)
  {
    var c := s.calls[i];
    R.CountAppend(c.trace, ev);
    KeySendsUpdate(s.calls, i, c.(trace := c.trace + [ev]), key);
  }

  lemma OpenStaysSilent(st: Setup, s: State, step: Step, key: string)
    requires st.Ready() && key in s.breakers && s.breakers[key].state == BreakerCore.Open
    requires BreakerCore.Shaped(st.breaker, s.breakers[key])
    requires Before(step, s.breakers[key].openedAt + st.breaker.openDuration)
    ensures var s' := Next(st, s, step);
            && key in s'.breakers && s'.breakers[key].state == BreakerCore.Open
            && BreakerCore.Shaped(st.breaker, s'.breakers[key])
            && s'.breakers[key].openedAt == s.breakers[key].openedAt
            && KeySends(s'.calls, key) == KeySends(s.calls, key)
  {
    hide R.Follow, R.Advance, BreakerCore.Record, BreakerCore.Allow, B.Next, R.Sends, KeySends;
    var s' := Next(st, s, step);
    if step.AskBreaker? || step.Reply? {
      BreakerCore.RecordShaped(st.breaker, s.breakers[key], step.now, if step.Reply? then CountsAsFailure(step.err) else false);
      BreakerCore.OpenIsStable(st.breaker, s.breakers[key], step.now, if step.Reply? then CountsAsFailure(step.err) else false);
    }
    if s'.calls != s.calls {
      match step {
        case Begin(_, _, _) => NewCallSilent(s.calls, s'.calls[|s.calls|], key);
        case Decide(i, now) => SilentEvent(s, i, R.Granted(now), key); SilentEvent(s, i, R.Denied(now), key);
        case Locally(i, ev) => SilentEvent(s, i, ev, key);
        case AskBreaker(i, _) =>
          SilentEvent(s, i, R.Rejected, key);
          if s.calls[i].key != key {
            SilentEvent(s, i, R.Sent, key);
          }
        case Reply(i, now, err, due) => SilentEvent(s, i, R.Returned(err, now, due), key);
      }
    }
  }

  lemma NewCallSilent(calls: seq<Call>, c: Call, key: string)
    requires c.trace == []
    ensures KeySends(calls + [c], key) == KeySends(calls, key)
  {
    assert (calls + [c])[..|calls|] == calls;
  }

  /** Once a report has tripped or reopened the breaker of a key, no call on that key, new or
      retried, is sent before OpenDuration has passed. */
  lemma {:induction false} OpenBreakerCapsRetries(st: Setup, s: State, steps: seq<Step>, key: string)
    requires st.Ready() && key in s.breakers && s.breakers[key].state == BreakerCore.Open
    requires BreakerCore.Shaped(st.breaker, s.breakers[key])
    requires forall i :: 0 <= i < |steps| ==> Before(steps[i], s.breakers[key].openedAt + st.breaker.openDuration)
    ensures var s' := RunFrom(st, s, steps);
            && key in s'.breakers && s'.breakers[key].state == BreakerCore.Open
            && BreakerCore.Shaped(st.breaker, s'.breakers[key])
            && s'.breakers[key].openedAt == s.breakers[key].openedAt
            && KeySends(s'.calls, key) == KeySends(s.calls, key)
  {
    if steps != [] {
      OpenBreakerCapsRetries(st, s, steps[..|steps| - 1], key);
      OpenStaysSilent(st, RunFrom(st, s, steps[..|steps| - 1]), steps[|steps| - 1], key);
    }
  }
}
