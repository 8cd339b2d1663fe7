/** A call that nobody interferes with: its one life is a run of the machine of many calls. */
module LoneCalls {
  import opened Wrappers
  import opened GoTime
  import opened Classify
  import opened RetryLives
  import opened LoadBound
  import R = RetryTraces
  import B = BudgetRuns
  import G = GuardTraces
  import BreakerCore
  import Budgets
  import EventLog

  /** The machine's steps for one event of call i at `now`. */
  function StepsFor(i: nat, now: Time, ev: R.Event): seq<Step> {
    match ev
    case Granted(_) => [ReadTotal(i, now), ReadUsed(i, now), Decide(i, now)]
    case Denied(_) => [ReadTotal(i, now), ReadUsed(i, now), Decide(i, now)]
    case Sent => [AskBreaker(i, now)]
    case Rejected => [AskBreaker(i, now)]
    case Returned(result, at, due) => [Step.Reply(i, at, result, due)]
    case _ => [Locally(i, ev)]
  }

  function StepsOf(i: nat, start: Time, trace: seq<R.Event>): seq<Step> {
    if trace == [] then []
    else
      var before := trace[..|trace| - 1];
      StepsOf(i, start, before) + StepsFor(i, Clock(start, before), trace[|trace| - 1])
  }

  /** Call i has just begun in the circumstances `c`: nobody is inside Allow, and the logs and the
      breakers are those of the machine. */
  ghost predicate JustBegun(st: Setup, s: State, i: nat, c: Setting)
    requires st.Ready()
  {
    && s.asker == None && s.budget.phase.Idle? && s.budget.clock <= c.start
    && i < |s.calls| && s.calls[i].trace == [] && s.calls[i].rules == c.rules && c.rules.budgeted
    && c.budget == Some(st.budget) && c.requests == s.budget.requests && c.retries == s.budget.retries
    && BreakerCore.Shaped(st.breaker, BreakerOf(st, s, s.calls[i].key))
    && c.guards.Shielded? && c.guards.cfg == st.breaker && c.guards.own == BreakerOf(st, s, s.calls[i].key)
  }

  /** The machine has followed call i through `trace` and done nothing else.  It asks the breaker when
      the answer comes, one event after the attempt. */
  ghost predicate Followed(st: Setup, s: State, r: State, i: nat, c: Setting, trace: seq<R.Event>)
    requires st.Ready() && JustBegun(st, s, i, c)
  {
    var key := s.calls[i].key;
    && r.calls == s.calls[i := s.calls[i].(trace := trace)]
    && r.asker == None && r.budget.phase.Idle? && r.budget.clock <= Clock(c.start, trace)
    && r.budget.requests == c.requests && r.budget.retries == c.retries + Charged(trace)
    && BreakerCore.Shaped(st.breaker, BreakerOf(st, r, key))
    && G.Replayed(c.guards, Settled(trace)) == c.guards.(own := BreakerOf(st, r, key))
    && r.breakers - {key} == s.breakers - {key}
  }

  /** The events whose effect on the breaker has taken place. */
  function Settled(trace: seq<R.Event>): seq<R.Event> {
    if trace != [] && trace[|trace| - 1].Attempt? then trace[..|trace| - 1] else trace
  }

  lemma {:induction false} RunOn(st: Setup, s: State, a: seq<Step>, b: seq<Step>)
    requires st.Ready()
    ensures RunFrom(st, s, a + b) == RunFrom(st, RunFrom(st, s, a), b)
  {
    hide Next, Setup.Ready;
    if b == [] {
      assert a + b == a;
    } else {
      RunOn(st, s, a, b[..|b| - 1]);
      assert (a + b)[..|a + b| - 1] == a + b[..|b| - 1];
    }
  }

  lemma OneStep(st: Setup, r: State, a: Step)
    requires st.Ready()
    ensures RunFrom(st, r, [a]) == Next(st, r, a)
  {
    hide Next, Setup.Ready;
    assert [a][..0] == [];
    assert RunFrom(st, r, []) == r;
  }

  lemma ThreeSteps(st: Setup, r: State, a: Step, b: Step, c: Step)
    requires st.Ready()
    ensures RunFrom(st, r, [a, b, c]) == Next(st, Next(st, Next(st, r, a), b), c)
  {
    hide Next;
    OneStep(st, r, a);
    assert [a, b, c][..2] == [a, b] && [a, b][..1] == [a];
  }

  /** Time does not run backwards in a life. */
  lemma Onwards(c: Setting, before: seq<R.Event>, p: R.Phase, ev: R.Event)
    requires R.Advance(c.rules, p, ev).Some? && ExplainedAt(c, before, ev)
    ensures Clock(c.start, before) <= Clock(c.start, before + [ev])
  {
    ClockAppend(c.start, before, ev);
    hide Granting, HasRoom, GivesUp, R.AttemptNumbers, R.Rules.Retries, R.Config.Backoff, TimerAt;
  }

  /** What the next event of call i has to be, for the machine to follow it. */
  ghost predicate Due(st: Setup, s: State, r: State, i: nat, c: Setting, before: seq<R.Event>, ev: R.Event)
    requires st.Ready() && JustBegun(st, s, i, c)
  {
    && Followed(st, s, r, i, c, before)
    && R.Follow(c.rules, before).Some? && R.Advance(c.rules, R.Follow(c.rules, before).value, ev).Some?
    && ExplainedAt(c, before, ev)
    && (ev.Sent? || ev.Rejected? ==> LetThrough(c.guards, before, ev.Sent?))
  }

  lemma EndsInAttempt(rules: R.Rules, trace: seq<R.Event>)
    requires R.Follow(rules, trace).Some?
    ensures R.Follow(rules, trace).value.Calling? <==> trace != [] && trace[|trace| - 1].Attempt?
    ensures !R.Follow(rules, trace).value.Calling? ==> Settled(trace) == trace
  {}

  lemma MovesLocally(st: Setup, r: State, i: nat, ev: R.Event)
    requires st.Ready() && PhaseOf(r, i).Some? && R.Advance(r.calls[i].rules, PhaseOf(r, i).value, ev).Some?
    requires ev.Slept? || ev.Interrupted? || ev.NoTime? || ev.Attempt?
    ensures Next(st, r, Locally(i, ev)) == AddEvent(r, i, ev)
  {
    hide PhaseOf, R.Advance;
  }

  lemma GoesLocally(st: Setup, s: State, r: State, i: nat, c: Setting, before: seq<R.Event>, ev: R.Event)
    requires st.Ready() && JustBegun(st, s, i, c) && Due(st, s, r, i, c, before, ev)
    requires ev.Slept? || ev.Interrupted? || ev.NoTime? || ev.Attempt?
    ensures Followed(st, s, RunFrom(st, r, StepsFor(i, Clock(c.start, before), ev)), i, c, before + [ev])
  {
    hide ExplainedAt, LetThrough, Clock, Charged, Settled, R.Follow, RunFrom, Next, PhaseOf, BreakerOf, G.Replayed;
    hide BreakerCore.Shaped, Setup.Ready;
    CallsFollow(s, r, i, before, ev);
    MovesLocally(st, r, i, ev);
    GuardMoves(c, before, ev);
    Onwards(c, before, R.Follow(c.rules, before).value, ev);
    ChargedAppend(before, ev);
    OneStep(st, r, Locally(i, ev));
    SameBreakers(st, r, i, ev, s.calls[i].key);
  }

  lemma SameBreakers(st: Setup, r: State, i: nat, ev: R.Event, key: string)
    requires st.Ready() && i < |r.calls|
    ensures BreakerOf(st, AddEvent(r, i, ev), key) == BreakerOf(st, r, key)
  {}

  /** The machine's step and the breaker's own function. */
  lemma BreakerAnswers(st: Setup, r: State, i: nat, now: Time)
    requires st.Ready() && PhaseOf(r, i).Some? && PhaseOf(r, i).value.Calling?
    requires BreakerCore.Shaped(st.breaker, BreakerOf(st, r, r.calls[i].key))
    ensures var key, r' := r.calls[i].key, Next(st, r, AskBreaker(i, now));
            var asked := BreakerCore.Allow(st.breaker, BreakerOf(st, r, key), now);
            && r'.calls == AddEvent(r, i, if asked.1 then R.Sent else R.Rejected).calls
            && r'.budget == r.budget && r'.asker == r.asker
            && BreakerOf(st, r', key) == asked.0 && BreakerCore.Shaped(st.breaker, asked.0)
            && r'.breakers - {key} == r.breakers - {key}
  {
    hide R.Follow;
  }

  lemma BreakerHears(st: Setup, r: State, i: nat, ev: R.Event)
    requires st.Ready() && PhaseOf(r, i).Some? && PhaseOf(r, i).value.InFlight? && ev.Returned?
    requires BreakerCore.Shaped(st.breaker, BreakerOf(st, r, r.calls[i].key))
    ensures var key, r' := r.calls[i].key, Next(st, r, Step.Reply(i, ev.at, ev.result, ev.due));
            var told := BreakerCore.Record(st.breaker, BreakerOf(st, r, key), ev.at, CountsAsFailure(ev.result));
            && r'.calls == AddEvent(r, i, ev).calls
            && r'.budget == r.budget && r'.asker == r.asker
            && BreakerOf(st, r', key) == told && BreakerCore.Shaped(st.breaker, told)
            && r'.breakers - {key} == r.breakers - {key}
  {
    BreakerCore.RecordShaped(st.breaker, BreakerOf(st, r, r.calls[i].key), ev.at, CountsAsFailure(ev.result));
    hide R.Follow, BreakerCore.Record;
  }

  /** What the event does to the breaker in a life. */
  lemma GuardMoves(c: Setting, before: seq<R.Event>, ev: R.Event)
    requires R.Follow(c.rules, before).Some? && R.Advance(c.rules, R.Follow(c.rules, before).value, ev).Some?
    requires ExplainedAt(c, before, ev) && (ev.Sent? || ev.Rejected? ==> LetThrough(c.guards, before, ev.Sent?))
    ensures ev.Sent? || ev.Rejected? ==>
              var now, g := Clock(c.start, before), G.Replayed(c.guards, Settled(before));
              && G.Replayed(c.guards, Settled(before + [ev])) == G.Asked(g, now)
              && (ev.Sent? <==> G.Admits(g, now))
    ensures ev.Returned? ==>
              G.Replayed(c.guards, Settled(before + [ev])) == G.Told(G.Replayed(c.guards, Settled(before)), ev.at, ev.result)
    ensures ev.Slept? || ev.Interrupted? || ev.NoTime? || ev.Attempt? || ev.Granted? || ev.Denied? ==>
              G.Replayed(c.guards, Settled(before + [ev])) == G.Replayed(c.guards, Settled(before))
  {
    EndsInAttempt(c.rules, before);
    ReplayedAppend(c.guards, before, ev);
    assert (before + [ev])[..|before|] == before;
    hide ExplainedAt, G.Admits, G.Asked, G.Told, R.Follow;
  }

  lemma CallsFollow(s: State, r: State, i: nat, before: seq<R.Event>, ev: R.Event)
    requires i < |s.calls| && r.calls == s.calls[i := s.calls[i].(trace := before)]
    ensures AddEvent(r, i, ev).calls == s.calls[i := s.calls[i].(trace := before + [ev])]
    ensures PhaseOf(r, i) == R.Follow(s.calls[i].rules, before)
  {}

  lemma AsksTheBreaker(st: Setup, s: State, r: State, i: nat, c: Setting, before: seq<R.Event>, ev: R.Event)
    requires st.Ready() && JustBegun(st, s, i, c) && Due(st, s, r, i, c, before, ev)
    requires ev.Sent? || ev.Rejected?
    ensures Followed(st, s, RunFrom(st, r, StepsFor(i, Clock(c.start, before), ev)), i, c, before + [ev])
  {
    hide ExplainedAt, LetThrough, Clock, Charged, Settled, R.Follow, RunFrom, Next, AddEvent, PhaseOf, BreakerOf, G.Replayed;
    hide BreakerCore.Allow, BreakerCore.Record, BreakerCore.Shaped, Setup.Ready;
    var now := Clock(c.start, before);
    CallsFollow(s, r, i, before, ev);
    EndsInAttempt(c.rules, before);
    BreakerAnswers(st, r, i, now);
    GuardMoves(c, before, ev);
    ClockAppend(c.start, before, ev);
    ChargedAppend(before, ev);
    OneStep(st, r, AskBreaker(i, now));
  }

  lemma Replies(st: Setup, s: State, r: State, i: nat, c: Setting, before: seq<R.Event>, ev: R.Event)
    requires st.Ready() && JustBegun(st, s, i, c) && Due(st, s, r, i, c, before, ev)
    requires ev.Returned?
    ensures Followed(st, s, RunFrom(st, r, StepsFor(i, Clock(c.start, before), ev)), i, c, before + [ev])
  {
    hide ExplainedAt, LetThrough, Clock, Charged, Settled, R.Follow, RunFrom, Next, AddEvent, PhaseOf, BreakerOf, G.Replayed;
    hide BreakerCore.Allow, BreakerCore.Record, BreakerCore.Shaped, Setup.Ready;
    CallsFollow(s, r, i, before, ev);
    BreakerHears(st, r, i, ev);
    GuardMoves(c, before, ev);
    Onwards(c, before, R.Follow(c.rules, before).value, ev);
    ChargedAppend(before, ev);
    OneStep(st, r, Step.Reply(i, ev.at, ev.result, ev.due));
  }

  lemma EntersAllow(st: Setup, r: State, i: nat, now: Time)
    requires st.Ready() && r.asker == None && r.budget.clock <= now
    requires PhaseOf(r, i).Some? && PhaseOf(r, i).value.Asking?
    ensures Next(st, r, ReadTotal(i, now)) == r.(asker := Some(i), budget := B.Next(st.budget, r.budget, B.ReadTotal(now)))
  {
    hide PhaseOf, B.Next;
  }

  lemma ReadsOn(st: Setup, r: State, i: nat, now: Time)
    requires st.Ready() && r.asker == Some(i) && r.budget.phase.HasTotal? && r.budget.clock <= now
    ensures Next(st, r, ReadUsed(i, now)) == r.(budget := B.Next(st.budget, r.budget, B.ReadUsed(now)))
  {
    hide PhaseOf, B.Next;
  }

  lemma LeavesAllow(st: Setup, r: State, i: nat, now: Time)
    requires st.Ready() && r.asker == Some(i) && r.budget.phase.HasUsed? && r.budget.clock <= now && i < |r.calls|
    ensures var b := B.Next(st.budget, r.budget, B.Decide(now));
            Next(st, r, Decide(i, now)) == AddEvent(r.(asker := None, budget := b), i,
              if |b.grants| > |r.budget.grants| then R.Granted(now) else R.Denied(now))
  {
    hide PhaseOf, B.Next, AddEvent;
  }

  /** Inside Allow the budget only reads until it decides. */
  lemma ReadsFirst(cfg: Budgets.Config, b: B.State, now: Time)
    requires cfg.Ready() && b.phase.Idle? && b.clock <= now
    ensures var b1 := B.Next(cfg, b, B.ReadTotal(now));
            var b2 := B.Next(cfg, b1, B.ReadUsed(now));
            && b1.phase.HasTotal? && b1.clock == now
            && b2.phase.HasUsed? && b2.clock == now && b2.grants == b.grants
  {
    hide Budgets.Counted, Budgets.Config.Ready;
  }

  /** The three steps inside Allow, and what they do to the budget. */
  lemma BudgetAnswers(st: Setup, r: State, i: nat, now: Time)
    requires st.Ready() && r.asker == None && r.budget.phase.Idle? && r.budget.clock <= now
    requires PhaseOf(r, i).Some? && PhaseOf(r, i).value.Asking?
    ensures var ok, r' := Affords(st.budget, r.budget.requests, r.budget.retries, now),
                          RunFrom(st, r, [ReadTotal(i, now), ReadUsed(i, now), Decide(i, now)]);
            && r'.calls == AddEvent(r, i, if ok then R.Granted(now) else R.Denied(now)).calls
            && r'.asker == None && r'.budget.phase.Idle? && r'.budget.clock == now
            && r'.budget.requests == r.budget.requests
            && r'.budget.retries == (if ok then r.budget.retries + [EventLog.Event(now, 1.0)] else r.budget.retries)
            && r'.breakers == r.breakers
  {
    hide R.Follow, Budgets.Counted, Budgets.Config.Ready, RunFrom, Next, B.Next;
    ThreeSteps(st, r, ReadTotal(i, now), ReadUsed(i, now), Decide(i, now));
    B.AllowIsThreeSteps(st.budget, r.budget, now, now, now);
    ReadsFirst(st.budget, r.budget, now);
    EntersAllow(st, r, i, now);
    var r1 := Next(st, r, ReadTotal(i, now));
    ReadsOn(st, r1, i, now);
    LeavesAllow(st, Next(st, r1, ReadUsed(i, now)), i, now);
  }

  lemma AsksTheBudget(st: Setup, s: State, r: State, i: nat, c: Setting, before: seq<R.Event>, ev: R.Event)
    requires st.Ready() && JustBegun(st, s, i, c) && Due(st, s, r, i, c, before, ev)
    requires ev.Granted? || ev.Denied?
    ensures Followed(st, s, RunFrom(st, r, StepsFor(i, Clock(c.start, before), ev)), i, c, before + [ev])
  {
    hide LetThrough, Charged, Settled, R.Follow, RunFrom, Next, AddEvent, PhaseOf, G.Replayed, Affords;
    hide BreakerCore.Shaped, Setup.Ready;
    CallsFollow(s, r, i, before, ev);
    BudgetAnswers(st, r, i, Clock(c.start, before));
    GuardMoves(c, before, ev);
    ClockAppend(c.start, before, ev);
    ChargedAppend(before, ev);
  }

  lemma EventFollowed(st: Setup, s: State, r: State, i: nat, c: Setting, before: seq<R.Event>, ev: R.Event)
    requires st.Ready() && JustBegun(st, s, i, c) && Due(st, s, r, i, c, before, ev)
    ensures Followed(st, s, RunFrom(st, r, StepsFor(i, Clock(c.start, before), ev)), i, c, before + [ev])
  {
    hide Due, Followed, JustBegun, StepsFor, RunFrom, Clock, Setup.Ready;
    match ev {
      case Granted(_) => AsksTheBudget(st, s, r, i, c, before, ev);
      case Denied(_) => AsksTheBudget(st, s, r, i, c, before, ev);
      case Sent => AsksTheBreaker(st, s, r, i, c, before, ev);
      case Rejected => AsksTheBreaker(st, s, r, i, c, before, ev);
      case Returned(_, _, _) => Replies(st, s, r, i, c, before, ev);
      case Slept(_, _) => GoesLocally(st, s, r, i, c, before, ev);
      case Interrupted(_, _, _) => GoesLocally(st, s, r, i, c, before, ev);
      case NoTime(_, _) => GoesLocally(st, s, r, i, c, before, ev);
      case Attempt(_, _) => GoesLocally(st, s, r, i, c, before, ev);
    }
  }

  lemma NothingFollowed(st: Setup, s: State, i: nat, c: Setting)
    requires st.Ready() && JustBegun(st, s, i, c)
    ensures Followed(st, s, s, i, c, [])
  {
    assert s.calls == s.calls[i := s.calls[i].(trace := [])];
    assert G.Replayed(c.guards, []) == c.guards;
  }

  /** A life without its last event is a life, and the machine can follow that event. */
  lemma LastIsDue(st: Setup, s: State, r: State, i: nat, c: Setting, trace: seq<R.Event>, p: R.Phase, now: Time)
    requires st.Ready() && JustBegun(st, s, i, c) && Lived(c, trace, p, now) && trace != []
    ensures var before, ev := trace[..|trace| - 1], trace[|trace| - 1];
            && R.Follow(c.rules, before).Some?
            && Lived(c, before, R.Follow(c.rules, before).value, Clock(c.start, before))
            && (Followed(st, s, r, i, c, before) ==> Due(st, s, r, i, c, before, ev))
  {
    Earlier(c, trace);
    hide R.Follow, R.Advance, Explained, ExplainedAt, G.Obeyed, LetThrough, Clock, Followed, JustBegun, Setup.Ready;
  }

  /** The life of a call that has begun, up to any point, is a run of the machine: from the state in
      which it begins, the steps of its events take that call through exactly this life, its breaker
      and the budget's logs to what the life says, and touch nothing else. */
  lemma {:induction false} LifeIsRun(st: Setup, s: State, i: nat, c: Setting, trace: seq<R.Event>, p: R.Phase, now: Time)
    requires st.Ready() && JustBegun(st, s, i, c) && Lived(c, trace, p, now)
    ensures Followed(st, s, RunFrom(st, s, StepsOf(i, c.start, trace)), i, c, trace)
  {
    hide Followed, JustBegun, StepsFor, Setup.Ready, Next, Lived, Due, Clock, R.Follow;
    if trace == [] {
      NothingFollowed(st, s, i, c);
      assert RunFrom(st, s, []) == s;
    } else {
      var before, ev := trace[..|trace| - 1], trace[|trace| - 1];
      var steps := StepsOf(i, c.start, before);
      LastIsDue(st, s, RunFrom(st, s, steps), i, c, trace, p, now);
      LifeIsRun(st, s, i, c, before, R.Follow(c.rules, before).value, Clock(c.start, before));
      hide RunFrom;
      EventFollowed(st, s, RunFrom(st, s, steps), i, c, before, ev);
      RunOn(st, s, steps, StepsFor(i, Clock(c.start, before), ev));
      assert before + [ev] == trace;
    }
  }

  /** The circumstances `c` are those of a call on `key` that begins in state s, when nobody is inside
      Allow: its request is on the books if it may be retried. */
  ghost predicate Meets(st: Setup, s: State, key: string, c: Setting)
    requires st.Ready()
  {
    && s.asker == None && s.budget.phase.Idle? && s.budget.clock <= c.start
    && c.rules == R.Rules(st.retry, c.rules.retryable, true) && c.budget == Some(st.budget)
    && c.requests == s.budget.requests + (if c.rules.retryable then [EventLog.Event(c.start, 1.0)] else [])
    && c.retries == s.budget.retries
    && BreakerCore.Shaped(st.breaker, BreakerOf(st, s, key))
    && c.guards.Shielded? && c.guards.cfg == st.breaker && c.guards.own == BreakerOf(st, s, key)
  }

  lemma Begins(st: Setup, s: State, key: string, c: Setting)
    requires st.Ready() && Meets(st, s, key, c)
    ensures var t := Next(st, s, Begin(key, c.rules.retryable, c.start));
            && t.calls == s.calls + [Call(key, c.rules, [])] && t.breakers == s.breakers
            && JustBegun(st, t, |s.calls|, c)
  {
    hide BreakerCore.Shaped, Setup.Ready;
  }

  /** A call that nobody interferes with has, in the machine of many calls, the one life it has by
      itself: the machine adds a call with exactly that life, takes the breaker of its key where the
      life takes it, charges the budget what the life charges, and changes no other breaker. */
  lemma LoneCallIsRun(st: Setup, s: State, key: string, c: Setting, trace: seq<R.Event>, err: Option<Err>, finish: Time)
    requires st.Ready() && Meets(st, s, key, c) && Lived(c, trace, R.Finished(err), finish)
    ensures var steps := [Begin(key, c.rules.retryable, c.start)] + StepsOf(|s.calls|, c.start, trace);
            var r := RunFrom(st, s, steps);
            && r.calls == s.calls + [Call(key, c.rules, trace)]
            && r.budget.requests == c.requests && r.budget.retries == c.retries + Charged(trace)
            && G.Replayed(c.guards, trace) == c.guards.(own := BreakerOf(st, r, key))
            && r.breakers - {key} == s.breakers - {key}
  {
    hide Meets, JustBegun, Next, StepsOf, RunFrom, Charged, G.Replayed, Explained, G.Obeyed, Clock, Setup.Ready;
    var first := Begin(key, c.rules.retryable, c.start);
    Begins(st, s, key, c);
    LifeIsRun(st, Next(st, s, first), |s.calls|, c, trace, R.Finished(err), finish);
    OneStep(st, s, first);
    RunOn(st, s, [first], StepsOf(|s.calls|, c.start, trace));
    EndsInAttempt(c.rules, trace);
  }
}
