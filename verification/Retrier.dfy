/** The retry loop over real objects: policy cache, retry budget, deadline budget and one attempt
    at a time. */
module Retriers {
  import opened Wrappers
  import opened GoTime
  import EventLog
  import opened Classify
  import opened RetryTraces
  import opened RetryLives
  import opened Circumstances
  import opened Operations
  import opened AttemptHeaders
  import opened GuardTraces
  import opened Policies
  import Budgets
  import Deadlines

  class Retrier {
    const cfg: Config
    const policy: Policy
    const budget: Budgets.Budget?
    const deadline: Deadlines.Budget

    ghost predicate Valid()
      reads policy
      reads if budget != null then budget.Repr() else {}
    {
      cfg.Validate() && policy.Valid() && (budget != null ==> budget.Valid() && budget.cfg.Ready())
    }

    ghost function Repr(): set<object> {
      {policy as object} + if budget != null then budget.Repr() else {}
    }

    constructor (cfg: Config, policy: Policy, budget: Budgets.Budget?, deadline: Deadlines.Budget)
      requires cfg.Validate() && policy.Valid() && (budget != null ==> budget.Valid() && budget.cfg.Ready())
      ensures Valid() && this.cfg == cfg && this.policy == policy && this.budget == budget && this.deadline == deadline
    {
      this.cfg := cfg;
      this.policy := policy;
      this.budget := budget;
      this.deadline := deadline;
    }

    /** `New`: null when the configuration is rejected. */
    static method New(cfg: Config, policy: Policy, budget: Budgets.Budget?, deadline: Deadlines.Budget) returns (r: Retrier?)
      requires policy.Valid() && (budget != null ==> budget.Valid() && budget.cfg.Ready())
      ensures r == null <==>
                || cfg.maxAttempts < 0
                || (cfg.maxAttempts > 0 && cfg.base <= 0)
                || (0 < cfg.maxBackoff < cfg.base)
      ensures r != null ==>
                r.Valid() && r.cfg == cfg && r.policy == policy && r.budget == budget && r.deadline == deadline
    {
      if !cfg.Validate() {
        return null;
      }
      r := new Retrier(cfg, policy, budget, deadline);
    }

    ghost function RulesFor(procedure: string): Rules {
      Rules(cfg, Safe(policy.resolve(procedure)), budget != null)
    }

    /** The jittered wait before attempt n: uniform below the backoff, here `draw` reduced to it. */
    function Wait(n: nat, draw: nat): (wait: int)
      requires n >= 1
      ensures 0 <= wait && (cfg.Backoff(n) > 0 ==> wait < cfg.Backoff(n))
    {
      if cfg.Backoff(n) <= 0 then 0 else draw % cfg.Backoff(n)
    }

    /** Full jitter: the waits that can be drawn are exactly those from zero up to the backoff. */
    lemma FullJitter(n: nat, wait: int)
      requires n >= 1 && cfg.Backoff(n) > 0
      ensures (exists draw: nat :: Wait(n, draw) == wait) <==> 0 <= wait < cfg.Backoff(n)
    {
      hide Config.Backoff;
      if 0 <= wait < cfg.Backoff(n) {
        var draw: nat := wait;
        SmallMod(draw, cfg.Backoff(n));
        assert Wait(n, draw) == wait;
      }
    }

    static lemma SmallMod(a: nat, b: nat)
      requires a < b
      ensures a % b == a
    {}

    /** Waits out the backoff before attempt n, or gives up with the context.  `took` is the time
        until the first of the two was ready; the goroutine runs again `lag` later, and by then
        either may be taken if both are ready. */
    method Sleep(ctx: Context, n: nat, now: Time, env: Env) returns (err: Option<Err>, took: int, end: Time)
      requires n >= 1
      ensures cfg.Backoff(n) <= 0 ==> err == None && took == 0 && end == now
      ensures cfg.Backoff(n) > 0 ==>
                var timerAt := now + Wait(n, env.draw);
                && took == ctx.FirstReady(now, timerAt) - now
                && end == now + took + env.lag
                && (err.Some? <==> ctx.Fired(end) && (end < timerAt || env.contextWins))
      ensures err.Some? ==> err.value == Err(Coded(DeadlineExceeded), [ctx.DoneErr()])
      ensures err.Some? ==> CodeOf(err.value) == DeadlineExceeded && Is(err.value, ctx.DoneErr().kind)
      ensures err == None ==> now + Wait(n, env.draw) <= end
      ensures Rules(cfg, true, true).Sleepable(n, took)
      ensures ctx.deadline.Some? && now <= ctx.deadline.value ==> end <= ctx.deadline.value + env.lag
    {
      took, end := 0, now;
      var backoff := cfg.base * Pow2(n - 1);
      if cfg.maxBackoff > 0 && backoff > cfg.maxBackoff {
        backoff := cfg.maxBackoff;
      }
      assert backoff == cfg.Backoff(n);
      if backoff <= 0 {
        return None, took, end;
      }
      var timerAt, done := now + env.draw % backoff, ctx.DoneAt();
      end := ctx.FirstReady(now, timerAt);
      took := end - now;
      end := end + env.lag;
      if done.Some? && done.value <= end && (end < timerAt || env.contextWins) {
        var e := NewError(DeadlineExceeded, ctx.DoneErr());
        assert Is(e.causes[0], ctx.DoneErr().kind);
        return Some(e), took, end;
      }
      return None, took, end;
    }

    // ----- the books -----

    ghost function RequestLog(): seq<EventLog.Event>
      reads if budget != null then {budget, budget.requests} else {}
    {
      if budget == null then [] else budget.requests.log
    }

    ghost function RetryLog(): seq<EventLog.Event>
      reads if budget != null then {budget, budget.retries} else {}
    {
      if budget == null then [] else budget.retries.log
    }

    /** The circumstances of a call that has recorded its request. */
    ghost function SettingFor(ctx: Context, procedure: string, start: Time, env: nat -> Env,
        requests: seq<EventLog.Event>, retries: seq<EventLog.Event>, guards: Guards): Setting
    {
      Setting(ctx, start, env, RulesFor(procedure), deadline.buffer, deadline.minimum,
              if budget == null then None else Some(budget.cfg), requests, retries, guards)
    }

    /** The setting is one of this retrier. */
    ghost predicate Fits(s: Setting) {
      && s.rules.cfg == cfg && s.rules.budgeted == (budget != null)
      && s.buffer == deadline.buffer && s.minimum == deadline.minimum
      && s.budget == if budget == null then None else Some(budget.cfg)
    }

    /** The budget's logs are what the setting and the trace say. */
    ghost predicate Books(s: Setting, trace: seq<Event>)
      reads if budget != null then {budget, budget.requests, budget.retries} else {}
    {
      budget != null ==> budget.requests.log == s.requests && budget.retries.log == s.retries + Charged(trace)
    }

    /** `trace` is the life of a call in the circumstances it met; the budget's logs have grown by its
        request, if the procedure is safe, and by the retries granted to it. */
    ghost predicate OneCall(ctx: Context, procedure: string, start: Time, env: nat -> Env, guards: Guards,
        requests: seq<EventLog.Event>, retries: seq<EventLog.Event>, trace: seq<Event>, err: Option<Err>, finish: Time)
      reads if budget != null then {budget, budget.requests, budget.retries} else {}
    {
      var recorded := requests
        + if budget != null && Safe(policy.resolve(procedure)) then [EventLog.Event(start, 1.0)] else [];
      && Lived(SettingFor(ctx, procedure, start, env, recorded, retries, guards), trace, Finished(err), finish)
      && RequestLog() == recorded
      && RetryLog() == retries + if budget == null then [] else Charged(trace)
    }

    // ----- the loop -----

    /** `Do`: runs the operation, retrying while the procedure is safe, the error transient, the
        budget willing and time left.  `trace` is the life of the call in its circumstances, of which
        there is only one; `last` the last round of the loop, which on success is the last attempt. */
    method Do(ctx: Context, procedure: string, op: Operation, start: Time, env: nat -> Env)
      returns (err: Option<Err>, trace: seq<Event>, finish: Time, last: nat)
      requires Valid() && op.Valid() && op.Footprint() !! Repr()
      modifies op.Footprint(), Repr()
      ensures Valid() && op.Valid() && fresh(op.Footprint() - old(op.Footprint()))
      ensures OneCall(ctx, procedure, start, env, old(op.Guards()), old(RequestLog()), old(RetryLog()), trace, err, finish)
      ensures op.Guards() == Replayed(old(op.Guards()), trace)
      ensures op.sends == old(op.sends) + Sends(trace)
      ensures err == None ==> env(last).reply.err == None && op.response == env(last).reply.response
      ensures last == Round(trace)
      ensures ctx.deadline.Some? ==> Affordable(trace, ctx.deadline.value, deadline.buffer + deadline.minimum)
      ensures ctx.deadline.Some? && start <= ctx.deadline.value && Honoured(trace) ==>
                finish <= ctx.deadline.value + env(last).lag
    {
      hide Operation.Guards, Replayed, Lived, Sends, Affordable, Honoured, Charged, Round;
      hide Operation.Valid, Budgets.Budget.Valid, Policy.Valid, Config.Validate, Safe, Budgets.Config.Ready;
      var retryable := Enter(procedure, op, start);
      ghost var s := SettingFor(ctx, procedure, start, env, RequestLog(), RetryLog(), op.Guards());
      NothingYet(s);
      if !retryable {
        var started: bool;
        started, err, trace, finish := RunAttempt(ctx, s, [], op, 0, None, start, env(0));
        last := 0;
      } else {
        err, trace, finish, last := Loop(ctx, op, start, env, s);
      }
      InTime(s, trace, err, finish);
    }

    /** Whether the procedure may be retried; if so the budget counts one logical call. */
    method Enter(procedure: string, ghost op: Operation, start: Time) returns (retryable: bool)
      requires Valid() && op.Valid() && op.Footprint() !! Repr()
      modifies Repr()
      ensures Valid() && retryable == Safe(policy.resolve(procedure))
      ensures RequestLog() == old(RequestLog())
                + if budget != null && retryable then [EventLog.Event(start, 1.0)] else []
      ensures RetryLog() == old(RetryLog())
      ensures op.Valid() && op.Guards() == old(op.Guards())
      ensures op.sends == old(op.sends) && op.Footprint() == old(op.Footprint())
    {
      hide Operation.Guards, Operation.Valid, Budgets.Budget.Valid, Policy.Valid, Safe;
      retryable := policy.Retryable(procedure);
      if retryable && budget != null {
        budget.RecordRequest(start);
      }
    }

    /** The loop of a retryable call. */
    method Loop(ctx: Context, op: Operation, start: Time, env: nat -> Env, ghost s: Setting)
      returns (err: Option<Err>, trace: seq<Event>, finish: Time, last: nat)
      requires Valid() && op.Valid() && op.Footprint() !! Repr()
      requires Fits(s) && s.rules.retryable && s.ctx == ctx && s.start == start && s.env == env
      requires op.Guards() == s.guards && Books(s, []) && Lived(s, [], HeadPhase(s.rules, 0, None), start)
      modifies op.Footprint(), if budget != null then budget.Repr() else {}
      ensures Valid() && op.Valid() && fresh(op.Footprint() - old(op.Footprint()))
      ensures Lived(s, trace, Finished(err), finish) && Books(s, trace)
      ensures op.Guards() == Replayed(s.guards, trace)
      ensures op.sends == old(op.sends) + Sends(trace)
      ensures err == None ==> env(last).reply.err == None && op.response == env(last).reply.response
      ensures last == Round(trace)
    {
      hide Operation.Guards, Replayed, Lived, Sends, Charged, Round;
      NothingYet(s);
      trace, finish, last := [], start, 0;
      var attempt := 0;
      err := None;
      while attempt <= cfg.maxAttempts
        invariant 0 <= attempt <= cfg.maxAttempts + 1
        invariant Valid() && op.Valid() && op.Footprint() !! Repr() && fresh(op.Footprint() - old(op.Footprint()))
        invariant Lived(s, trace, HeadPhase(s.rules, attempt, err), finish) && Books(s, trace)
        invariant op.sends == old(op.sends) + Sends(trace)
        invariant op.Guards() == Replayed(s.guards, trace)
        invariant err.Some? <==> attempt > 0
        invariant attempt > 0 ==> last == attempt - 1 == Round(trace)
      {
        var again: bool;
        again, err, trace, finish := Body(ctx, s, trace, op, attempt, err, finish, env(attempt));
        last := attempt;
        if !again {
          return;
        }
        attempt := attempt + 1;
      }
    }

    /** One round of the loop; `again` means it ended in a retryable error. */
    method Body(ctx: Context, ghost s: Setting, trace: seq<Event>, op: Operation,
        n: nat, last: Option<Err>, now: Time, env: Env)
      returns (again: bool, err: Option<Err>, trace': seq<Event>, end: Time)
      requires Valid() && op.Valid() && op.Footprint() !! Repr()
      requires Fits(s) && s.ctx == ctx && s.env(n) == env && n <= s.rules.Retries()
      requires Lived(s, trace, HeadPhase(s.rules, n, last), now) && (last.Some? <==> n > 0)
      requires op.Guards() == Replayed(s.guards, trace) && Books(s, trace)
      modifies op.Footprint(), if budget != null then budget.Repr() else {}
      ensures Valid() && op.Valid() && op.Footprint() !! Repr() && fresh(op.Footprint() - old(op.Footprint()))
      ensures Lived(s, trace', if again then HeadPhase(s.rules, n + 1, err) else Finished(err), end) && Books(s, trace')
      ensures again ==> err.Some?
      ensures op.Guards() == Replayed(s.guards, trace')
      ensures op.sends - Sends(trace') == old(op.sends) - Sends(trace)
      ensures err == None ==> env.reply.err == None && op.response == env.reply.response
      ensures Round(trace') == n
    {
      hide Operation.Guards, Replayed, Lived, Sends, Charged, Round;
      trace', err, end := trace, last, now;
      if n > 0 {
        var go: bool;
        go, err, trace', end := PrepareRetry(ctx, s, trace, op, n, last, now, env);
        if !go {
          again := false;
          return;
        }
      }
      var started: bool;
      started, err, trace', end := RunAttempt(ctx, s, trace', op, n, last, end, env);
      again := started && err.Some? && IsRetryable(err);
    }

    /** The first half of the loop body, for a retry: the budget's permission, then the backoff. */
    method PrepareRetry(ctx: Context, ghost s: Setting, trace: seq<Event>, ghost op: Operation,
        n: nat, last: Option<Err>, now: Time, env: Env)
      returns (go: bool, err: Option<Err>, trace': seq<Event>, end: Time)
      requires Valid() && Fits(s) && s.ctx == ctx && s.env(n) == env && last.Some?
      requires 1 <= n <= s.rules.Retries() && Lived(s, trace, HeadPhase(s.rules, n, last), now)
      requires op.Valid() && op.Footprint() !! Repr()
      requires op.Guards() == Replayed(s.guards, trace) && Books(s, trace)
      modifies if budget != null then budget.Repr() else {}
      ensures Valid() && err.Some?
      ensures op.Valid() && op.sends == old(op.sends) && op.Footprint() == old(op.Footprint())
      ensures op.Guards() == Replayed(s.guards, trace')
      ensures Lived(s, trace', if go then Deriving(n, last) else Finished(err), end) && (go ==> err == last)
      ensures Sends(trace') == Sends(trace) && Books(s, trace')
      ensures Round(trace') == n
    {
      hide Operation.Guards, Operation.Valid, Replayed, Lived, Sends, Charged, Round, Affords, Context.FirstReady, Context.Fired;
      hide Config.Backoff, Budgets.Budget.Valid, Policy.Valid, Rules.Sleepable;
      var ok := MayRetry(now);
      trace' := if budget == null then trace else trace + [if ok then Granted(now) else Denied(now)];
      BudgetAnswered(s, trace, n, last, now, ok);
      if !ok {
        return false, last, trace', now;
      }
      var took: int;
      err, took, end := Sleep(ctx, n, now, env);
      go := err == None;
      Slumber(s, trace', n, last, now, took, end, err);
      trace' := trace' + [if go then Slept(took, end) else Interrupted(took, end, err.value)];
      err := if go then last else err;
    }

    /** Asks for one more retry; without a budget every retry is granted. */
    method MayRetry(now: Time) returns (ok: bool)
      requires Valid()
      modifies if budget != null then budget.Repr() else {}
      ensures Valid()
      ensures budget == null ==> ok
      ensures budget != null ==>
                && budget.requests.log == old(budget.requests.log)
                && (ok <==> Affords(budget.cfg, budget.requests.log, old(budget.retries.log), now))
                && budget.retries.log == old(budget.retries.log) + if ok then [EventLog.Event(now, 1.0)] else []
    {
      hide Budgets.Counted, Budgets.Budget.Valid, Budgets.Config.Ready;
      ok := true;
      if budget != null {
        ok := budget.Allow(now, now, now);
      }
    }

    /** The second half: the deadline, the attempt, and the error it leaves. */
    method RunAttempt(ctx: Context, ghost s: Setting, trace: seq<Event>, op: Operation,
        n: nat, last: Option<Err>, now: Time, env: Env)
      returns (started: bool, err: Option<Err>, trace': seq<Event>, end: Time)
      requires op.Valid() && Fits(s) && s.ctx == ctx && s.env(n) == env
      requires Lived(s, trace, Deriving(n, last), now)
      requires Valid() && op.Footprint() !! Repr()
      requires op.Guards() == Replayed(s.guards, trace)
      modifies op.Footprint()
      ensures op.Valid() && fresh(op.Footprint() - old(op.Footprint()))
      ensures Valid() && op.Footprint() !! Repr()
      ensures op.Guards() == Replayed(s.guards, trace')
      ensures RequestLog() == old(RequestLog()) && RetryLog() == old(RetryLog())
      ensures Lived(s, trace', if started then RetryTraces.After(s.rules, n, err) else Finished(err), end)
      ensures op.sends - Sends(trace') == old(op.sends) - Sends(trace) && Charged(trace') == Charged(trace)
      ensures err == None ==> started && env.reply.err == None && op.response == env.reply.response
      ensures started && n > 0 ==> op.header == AttemptHeader(n)
      ensures Round(trace') == n
    {
      hide Operation.Guards, Replayed, Lived, Sends, Charged, Round, RetryTraces.After;
      started, err, trace', end := Try(ctx, s, trace, op, n, last, now, env);
    }

    /** The same for the operation alone. */
    method Try(ctx: Context, ghost s: Setting, trace: seq<Event>, op: Operation,
        n: nat, last: Option<Err>, now: Time, env: Env)
      returns (started: bool, err: Option<Err>, trace': seq<Event>, end: Time)
      requires op.Valid() && Fits(s) && s.ctx == ctx && s.env(n) == env
      requires Lived(s, trace, Deriving(n, last), now) && op.Guards() == Replayed(s.guards, trace)
      modifies op.Footprint()
      ensures op.Valid() && fresh(op.Footprint() - old(op.Footprint()))
      ensures op.Guards() == Replayed(s.guards, trace')
      ensures Lived(s, trace', if started then RetryTraces.After(s.rules, n, err) else Finished(err), end)
      ensures op.sends - Sends(trace') == old(op.sends) - Sends(trace) && Charged(trace') == Charged(trace)
      ensures err == None ==> started && env.reply.err == None && op.response == env.reply.response
      ensures started && n > 0 ==> op.header == AttemptHeader(n)
      ensures Round(trace') == n
    {
      hide Operation.Guards, Replayed, Lived, Sends, Charged, Round, GuardTraces.Asked, Told, Admits;
      hide Deadlines.Budget.Derive, HasRoom, AttemptDeadline, RetryTraces.After;
      var derived := deadline.Derive(Deadlines.Ctx(ctx.deadline), now, now);
      Derives(s, now);
      if derived.Refused? {
        OutOfTime(s, trace, n, last, now);
        trace' := trace + [NoTime(now, derived.err)];
        return false, if last.Some? then last else Some(derived.err), trace', now;
      }
      var sent: bool;
      err, sent, end := op.Invoke(n, now, env.reply);
      started := true;
      trace' := trace + [Attempt(n, now)] + if sent then [Sent] + [Returned(err, end, derived.ctx.deadline)] else [Rejected];
      Attempted(s, trace, n, last, now, sent, err, end);
    }

    /** What the deadline budget answers, in terms of the setting. */
    lemma Derives(s: Setting, now: Time)
      requires Fits(s)
      ensures var derived := deadline.Derive(Deadlines.Ctx(s.ctx.deadline), now, now);
              if HasRoom(s, now) then derived == Deadlines.Child(Deadlines.Ctx(AttemptDeadline(s)))
              else derived == Deadlines.Refused(Err(Coded(DeadlineExceeded), [Err(Other, [])]))
    {}

    /** Where the loop head stands before attempt n. */
    static function HeadPhase(rules: Rules, n: nat, err: Option<Err>): Phase {
      if n == 0 then Deriving(0, None)
      else if n > rules.Retries() then Finished(err)
      else if rules.budgeted then Asking(n, err)
      else Pausing(n, err)
    }

    static lemma NothingYet(s: Setting)
      ensures Lived(s, [], Deriving(0, None), s.start)
      ensures Replayed(s.guards, []) == s.guards && Sends([]) == 0 && Charged([]) == []
    {}

    /** The trace after the budget's answer. */
    lemma BudgetAnswered(s: Setting, trace: seq<Event>, n: nat, last: Option<Err>, now: Time, ok: bool)
      requires Fits(s) && 1 <= n <= s.rules.Retries() && Lived(s, trace, HeadPhase(s.rules, n, last), now)
      requires if budget == null then ok
               else ok <==> Affords(budget.cfg, s.requests, s.retries + Charged(trace), now)
      ensures var t := if budget == null then trace else trace + [if ok then Granted(now) else Denied(now)];
              && Lived(s, t, if ok then Pausing(n, last) else Finished(last), now)
              && Sends(t) == Sends(trace) && Replayed(s.guards, t) == Replayed(s.guards, trace)
              && Charged(t) == Charged(trace) + (if budget != null && ok then [EventLog.Event(now, 1.0)] else [])
              && (!ok ==> Round(t) == n)
    {
      hide Affords, Replayed, Charged, Sends;
      AttemptsBefore(s.rules, trace);
      if budget != null {
        var ev := if ok then Granted(now) else Denied(now);
        Extend(s, trace, Asking(n, last), now, ev);
        CountAppend(trace, ev);
        ReplayedAppend(s.guards, trace, ev);
        ChargedAppend(trace, ev);
      }
    }

    /** The trace after the backoff. */
    static lemma Slumber(s: Setting, trace: seq<Event>, n: nat, last: Option<Err>, now: Time,
        took: int, end: Time, err: Option<Err>)
      requires n >= 1 && Lived(s, trace, Pausing(n, last), now)
      requires Rules(s.rules.cfg, true, true).Sleepable(n, took) && SleepIs(s, n, now, took, end)
      requires err.Some? <==> GivesUp(s, n, now, end)
      requires err.Some? ==> err.value == Err(Coded(DeadlineExceeded), [s.ctx.DoneErr()])
      ensures var t := trace + [if err == None then Slept(took, end) else Interrupted(took, end, err.value)];
              && Lived(s, t, if err == None then Deriving(n, last) else Finished(err), end)
              && Sends(t) == Sends(trace) && Replayed(s.guards, t) == Replayed(s.guards, trace)
              && Charged(t) == Charged(trace) && Round(t) == n
    {
      hide SleepIs, GivesUp, Replayed, Charged, Sends;
      AttemptsBefore(s.rules, trace);
      var ev := if err == None then Slept(took, end) else Interrupted(took, end, err.value);
      Extend(s, trace, Pausing(n, last), now, ev);
      CountAppend(trace, ev);
      ReplayedAppend(s.guards, trace, ev);
      ChargedAppend(trace, ev);
    }
  }
}
