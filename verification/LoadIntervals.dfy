/** The load bound from any point of a run: what a stretch of time can add to the traffic, whatever
    went on before it. */
module LoadIntervals {
  import opened Wrappers
  import opened GoTime
  import opened EventLog
  import R = RetryTraces
  import B = BudgetRuns
  import opened Budgets
  import BreakerCore
  import opened LoadBound

  /** The call may put one more request on the wire without asking the budget again: it has not
      made its first attempt, or holds a granted retry that has not been sent. */
  predicate Owed(c: Call) {
    var p := R.Follow(c.rules, c.trace);
    p.Some? && (p.value.Pausing? || p.value.Deriving? || p.value.Calling?)
  }

  function OwedTotal(calls: seq<Call>): nat {
    if calls == [] then 0 else OwedTotal(calls[..|calls| - 1]) + if Owed(calls[|calls| - 1]) then 1 else 0
  }

  /** What a call has sent or may still send, beyond what was granted to it. */
  function Unpaid(c: Call): int {
    R.Sends(c.trace) - R.Grants(c.trace) + if Owed(c) then 1 else 0
  }

  lemma UnpaidIsOne(c: Call)
    requires CallOK(c)
    ensures Unpaid(c) <= 1
    ensures !R.Follow(c.rules, c.trace).value.Finished? ==> Unpaid(c) == 1
  {
    R.TraceBalances(c.rules, c.trace);
  }

  function UnpaidTotal(calls: seq<Call>): int {
    TotalSends(calls) - TotalGrants(calls) + OwedTotal(calls)
  }

  lemma {:induction false} OwedUpdate(calls: seq<Call>, i: nat, c: Call)
    requires i < |calls|
    ensures OwedTotal(calls[i := c])
         == OwedTotal(calls) + (if Owed(c) then 1 else 0) - if Owed(calls[i]) then 1 else 0
  {
    var n := |calls| - 1;
    if i == n {
      assert calls[i := c][..n] == calls[..n];
    } else {
      OwedUpdate(calls[..n], i, c);
      assert calls[i := c][..n] == calls[..n][i := c];
    }
  }

  lemma EventKeepsUnpaid(s: State, i: nat, ev: R.Event)
    requires i < |s.calls| && CallsOK(s.calls)
    requires R.Advance(s.calls[i].rules, PhaseOf(s, i).value, ev).Some?
    ensures UnpaidTotal(AddEvent(s, i, ev).calls) <= UnpaidTotal(s.calls)
  {
    var c := s.calls[i];
    var c' := c.(trace := c.trace + [ev]);
    R.FollowAppend(c.rules, c.trace, ev);
    NotFinished(c.rules, PhaseOf(s, i).value, ev);
    hide R.Follow, R.Advance, Owed, TotalSends, TotalGrants, OwedTotal;
    UnpaidIsOne(c);
    UnpaidIsOne(c');
    TotalsUpdate(s.calls, i, c');
    OwedUpdate(s.calls, i, c');
  }

  lemma NotFinished(rules: R.Rules, p: R.Phase, ev: R.Event)
    requires R.Advance(rules, p, ev).Some?
    ensures !p.Finished?
  {}

  lemma NewCallUnpaid(calls: seq<Call>, c: Call)
    requires c.trace == []
    ensures UnpaidTotal(calls + [c]) == UnpaidTotal(calls) + 1
  {
    assert (calls + [c])[..|calls|] == calls;
  }

  /** Only a new call can add to what is unpaid. */
  lemma StepKeepsUnpaid(st: Setup, s: State, step: Step)
    requires st.Ready() && Inv(st, s)
    ensures var s' := Next(st, s, step);
            UnpaidTotal(s'.calls) <= UnpaidTotal(s.calls) + |s'.calls| - |s.calls|
  {
    hide R.Follow, R.Advance, B.Inv, B.Next, CallsOK, UnpaidTotal, BreakerCore.Allow, BreakerCore.Record;
    var s' := Next(st, s, step);
    if s'.calls != s.calls {
      match step {
        case Begin(_, _, _) => NewCallUnpaid(s.calls, s'.calls[|s.calls|]);
        case Decide(i, now) =>
          var budget := B.Next(st.budget, s.budget, B.Decide(now));
          AskingDecides(s, i, now);
          EventKeepsUnpaid(s, i, if |budget.grants| > |s.budget.grants| then R.Granted(now) else R.Denied(now));
        case Locally(i, ev) => EventKeepsUnpaid(s, i, ev);
        case AskBreaker(i, now) =>
          var ok := BreakerCore.Allow(st.breaker, BreakerOf(st, s, s.calls[i].key), now).1;
          CallingAsks(s, i);
          EventKeepsUnpaid(s, i, if ok then R.Sent else R.Rejected);
        case Reply(i, now, err, due) =>
          InFlightReturns(s, i, R.Returned(err, now, due));
          EventKeepsUnpaid(s, i, R.Returned(err, now, due));
      }
    }
  }

  lemma AskingDecides(s: State, i: nat, now: Time)
    requires i < |s.calls| && PhaseOf(s, i).Some? && PhaseOf(s, i).value.Asking?
    ensures R.Advance(s.calls[i].rules, PhaseOf(s, i).value, R.Granted(now)).Some?
    ensures R.Advance(s.calls[i].rules, PhaseOf(s, i).value, R.Denied(now)).Some?
  {}

  lemma CallingAsks(s: State, i: nat)
    requires i < |s.calls| && PhaseOf(s, i).Some? && PhaseOf(s, i).value.Calling?
    ensures R.Advance(s.calls[i].rules, PhaseOf(s, i).value, R.Sent).Some?
    ensures R.Advance(s.calls[i].rules, PhaseOf(s, i).value, R.Rejected).Some?
  {}

  lemma InFlightReturns(s: State, i: nat, ev: R.Event)
    requires i < |s.calls| && PhaseOf(s, i).Some? && PhaseOf(s, i).value.InFlight? && ev.Returned?
    ensures R.Advance(s.calls[i].rules, PhaseOf(s, i).value, ev).Some?
  {}

  lemma {:induction false} RunKeepsUnpaid(st: Setup, s: State, steps: seq<Step>)
    requires st.Ready() && Inv(st, s)
    ensures var s' := RunFrom(st, s, steps);
            UnpaidTotal(s'.calls) <= UnpaidTotal(s.calls) + |s'.calls| - |s.calls|
  {
    hide Inv, UnpaidTotal, Next;
    if steps != [] {
      var before := steps[..|steps| - 1];
      RunKeepsUnpaid(st, s, before);
      RunKeepsInv(st, s, before);
      StepKeepsUnpaid(st, RunFrom(st, s, before), steps[|steps| - 1]);
    }
  }

  /** If everything after position m satisfies p, it weighs at least what follows m. */
  lemma {:induction false} WeightOfTail(log: seq<Event>, m: nat, p: Event -> bool)
    requires B.Units(log) && m <= |log| && forall j :: m <= j < |log| ==> p(log[j])
    ensures Weight(log, p) >= (|log| - m) as real
  {
    if |log| > m {
      WeightOfTail(Init(log), m, p);
    } else {
      WeightNonNegative(log, p);
    }
  }

  lemma {:induction false} WeightNonNegative(log: seq<Event>, p: Event -> bool)
    requires B.Units(log)
    ensures Weight(log, p) >= 0.0
  {
    if log != [] {
      WeightNonNegative(Init(log), p);
    }
  }

  /** The grants from position m on, if they fall within a short interval. */
  lemma GrantsSince(cfg: Budgets.Config, b: B.State, m: nat, from: Time, to: Time)
    requires cfg.Ready() && cfg.Shape().Regular() && B.Inv(cfg, b) && m < |b.grants|
    requires to - from <= (cfg.Shape().n - 1) * cfg.Shape().Width()
    requires forall k :: m <= k < |b.grants| ==> from <= b.grants[k].at <= to
    ensures b.grants[|b.grants| - 1].seen <= |b.requests|
    ensures (|b.grants| - m) as real < 1.0 + cfg.Allowance(B.RequestsBehind(cfg, b, |b.grants| - 1))
  {
    hide Budgets.Config.Allowance, B.ReadingOK, B.RequestsBehind;
    B.LastGrantBound(cfg, b, |b.grants| - 1, from, to);
    forall j | m <= j < |b.retries|
      ensures B.Within(from, to)(b.retries[j])
    {
      assert B.GrantOK(cfg, b, j);
    }
    WeightOfTail(b.retries, m, B.Within(from, to));
  }

  lemma SendsSince(st: Setup, s: State, s': State)
    requires st.Ready() && Inv(st, s) && Inv(st, s')
    requires UnpaidTotal(s'.calls) <= UnpaidTotal(s.calls) + |s'.calls| - |s.calls|
    ensures TotalSends(s'.calls) - TotalSends(s.calls)
            <= OwedTotal(s.calls) + (|s'.calls| - |s.calls|) + (|s'.budget.grants| - |s.budget.grants|)
  {
    hide B.Inv, CallsOK, TotalSends, TotalGrants, OwedTotal;
  }

  lemma BudgetInOrder(st: Setup, s: State)
    requires st.Ready() && Inv(st, s)
    ensures st.budget.Ready() && B.Inv(st.budget, s.budget)
  {
    hide B.Inv, CallsOK;
  }

  /** From any reachable state, for every continuation and every configuration: what is sent from then
      on is at most one request for every call that is owed one, one for every new call, and one for
      every retry granted since. */
  lemma SendsAreOwedOrGranted(st: Setup, past: seq<Step>, steps: seq<Step>)
    requires st.Ready()
    ensures var s, s' := Run(st, past), RunFrom(st, Run(st, past), steps);
            TotalSends(s'.calls) - TotalSends(s.calls)
            <= OwedTotal(s.calls) + (|s'.calls| - |s.calls|) + (|s'.budget.grants| - |s.budget.grants|)
  {
    RunKeepsInv(st, Start(), past);
    var s := Run(st, past);
    hide *;
    RunKeepsInv(st, s, steps);
    RunKeepsUnpaid(st, s, steps);
    SendsSince(st, s, RunFrom(st, s, steps));
  }

  /** What follows a state adds to the traffic. */
  ghost predicate Bounded(st: Setup, s: State, s': State)
    requires st.Ready()
  {
    && TotalSends(s'.calls) - TotalSends(s.calls)
       <= OwedTotal(s.calls) + (|s'.calls| - |s.calls|) + (|s'.budget.grants| - |s.budget.grants|)
    && (|s'.budget.grants| > |s.budget.grants| ==>
          var last := |s'.budget.grants| - 1;
          && s'.budget.grants[last].seen <= |s'.budget.requests|
          && (|s'.budget.grants| - |s.budget.grants|) as real
             < 1.0 + B.RequestsBehind(st.budget, s'.budget, last) * st.budget.ratio
               + st.budget.minPerSecond * (st.budget.window as real / 1_000_000_000.0))
  }

  lemma LoadAfter(st: Setup, s: State, steps: seq<Step>, from: Time, to: Time)
    requires st.Ready() && st.budget.Shape().Regular() && Inv(st, s)
    requires to - from <= (st.budget.Shape().n - 1) * st.budget.Shape().Width()
    requires forall k :: |s.budget.grants| <= k < |RunFrom(st, s, steps).budget.grants| ==>
               from <= RunFrom(st, s, steps).budget.grants[k].at <= to
    ensures Bounded(st, s, RunFrom(st, s, steps))
  {
    hide Inv, RunFrom, UnpaidTotal, OwedTotal, TotalSends, Budgets.Config.Allowance, B.RequestsBehind;
    RunKeepsInv(st, s, steps);
    RunKeepsUnpaid(st, s, steps);
    var s' := RunFrom(st, s, steps);
    SendsSince(st, s, s');
    if |s'.budget.grants| > |s.budget.grants| {
      BudgetInOrder(st, s');
      GrantsSince(st.budget, s'.budget, |s.budget.grants|, from, to);
      AllowanceIs(st.budget, B.RequestsBehind(st.budget, s'.budget, |s'.budget.grants| - 1));
    }
  }

  /** If moreover the grants since fall within (Buckets-1) widths, there are fewer of them than
      1 + floor + Ratio times the requests in the window that the last of them read. */
  lemma LoadSince(st: Setup, past: seq<Step>, steps: seq<Step>, from: Time, to: Time)
    requires st.Ready() && st.budget.Shape().Regular()
    requires to - from <= (st.budget.Shape().n - 1) * st.budget.Shape().Width()
    requires var s, s' := Run(st, past), RunFrom(st, Run(st, past), steps);
             forall k :: |s.budget.grants| <= k < |s'.budget.grants| ==> from <= s'.budget.grants[k].at <= to
    ensures Bounded(st, Run(st, past), RunFrom(st, Run(st, past), steps))
  {
    RunKeepsInv(st, Start(), past);
    hide *;
    LoadAfter(st, Run(st, past), steps, from, to);
  }
}
